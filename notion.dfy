/** The ledger client of src/clients/notion.py: the record-to-properties mapping,
    the "last sync" query, cursor pagination over the whole database and the
    per-record create loop with its single retry on `rate_limited`. The Notion SDK
    is the object `NotionSdk`, which logs every request and answers the n-th
    request of each kind from a script of replies fixed when it is built. */
module Notion {
  import opened Common

  /** Page size of every pagination request (the API maximum). */
  const PageSize: nat := 100
  /** Error code of the one API error the create loop recovers from. */
  const RateLimited: string := "rate_limited"
  /** Subaccount label used when a record carries none. */
  const MainAccount: string := "Main Account"

  /** A record handed to `create_records`: a dictionary whose keys may be missing
      (None below). Amounts are reals; the timestamp is in milliseconds. */
  datatype LedgerRecord = LedgerRecord(
    symbol: Option<string>,
    side: Option<string>,
    size: Option<real>,
    price: Option<real>,
    fee: Option<real>,
    pnl: Option<real>,
    timestamp: Option<int>,
    subaccount: Option<string>)

  /** A Notion property value. A date is kept as the millisecond instant it
      renders (the ISO-8601 text is not modelled). */
  datatype PropertyValue =
    | Select(name: Option<string>)
    | Number(number: Option<real>)
    | Date(startMs: int)
    | RichText(content: Option<string>)

  /** The columns of the ledger database. Each is named in Notion by its
      `Title`; the model keys properties by column rather than by that text. */
  datatype Column = Symbol | Side | Size | EntryExitPrice | Fee | PnL | Timestamp | Subaccount {
    function Title(): string {
      match this
      case Symbol => "Symbol"
      case Side => "Side"
      case Size => "Size"
      case EntryExitPrice => "Entry/Exit Price"
      case Fee => "Fee"
      case PnL => "PnL"
      case Timestamp => "Timestamp"
      case Subaccount => "Subaccount"
    }
  }

  /** Distinct columns have distinct titles, so keying by column is keying by title. */
  lemma TitleInjective(c: Column, d: Column)
    ensures c.Title() == d.Title() <==> c == d
  {
  }

  /** The titles of a list of columns, in order. */
  function Titles(columns: seq<Column>): (titles: seq<string>)
    ensures |titles| == |columns|
    ensures forall i :: 0 <= i < |columns| ==> titles[i] == columns[i].Title()
  {
    if columns == [] then [] else [columns[0].Title()] + Titles(columns[1..])
  }

  /** One entry of a property dictionary: column and value. */
  datatype Property = Property(column: Column, value: PropertyValue)

  /** A property dictionary as its entries in insertion order, which is the
      order Python keeps and sends. */
  type Properties = seq<Property>

  /** `props.get(column)`: the value of the first entry for that column. */
  function Lookup(props: Properties, column: Column): (v: Option<PropertyValue>)
    ensures v.Some? <==> exists i :: 0 <= i < |props| && props[i].column == column
  {
    if props == [] then None
    else if props[0].column == column then Some(props[0].value)
    else Lookup(props[1..], column)
  }

  /** The columns of a property dictionary, in order. */
  function Columns(props: Properties): (columns: seq<Column>)
    ensures |columns| == |props|
    ensures forall i :: 0 <= i < |props| ==> columns[i] == props[i].column
  {
    if props == [] then [] else [props[0].column] + Columns(props[1..])
  }

  /** The eight columns, in the order the mapping writes them. */
  const LedgerColumns: seq<Column> := [Symbol, Side, Size, EntryExitPrice, Fee, PnL, Timestamp, Subaccount]

  /** The property dictionary before the filter of `_map_to_notion_properties`. */
  function Schema(r: LedgerRecord): Properties {
    [ Property(Symbol, Select(r.symbol)),
      Property(Side, Select(r.side)),
      Property(Size, Number(r.size)),
      Property(EntryExitPrice, Number(r.price)),
      Property(Fee, Number(r.fee)),
      Property(PnL, Number(r.pnl)),
      Property(Timestamp, Date(r.timestamp.GetOr(0))),
      Property(Subaccount, RichText(Some(r.subaccount.GetOr(MainAccount)))) ]
  }

  /** `v.get('number')`: the number of a number property, None for any other kind. */
  function NumberOf(v: PropertyValue): Option<real> {
    if v.Number? then v.number else None
  }

  /** The filter's condition: `isinstance(n, float) and n is None` for `n = v.get('number')`. */
  predicate IsNullFloat(v: PropertyValue) {
    NumberOf(v).Some? && NumberOf(v).None?
  }

  /** The comprehension of `_map_to_notion_properties`: the entries, in order,
      whose value fails the null-number test. */
  function DropNullNumbers(props: Properties): Properties {
    if props == [] then []
    else (if IsNullFloat(props[0].value) then [] else [props[0]]) + DropNullNumbers(props[1..])
  }

  /** `_map_to_notion_properties`: the schema dictionary passed through the
      filter that is meant to drop null numbers. */
  function MapToProperties(r: LedgerRecord): Properties {
    DropNullNumbers(Schema(r))
  }

  /** The filter's test holds of no value: a value is never both a float and None. */
  lemma NoValueIsNullFloat(v: PropertyValue)
    ensures !IsNullFloat(v)
  {
    if v.Number? {
      assert NumberOf(v) == v.number;
    }
  }

  /** Hence the filter keeps every entry, in order. */
  lemma {:induction false} DropNullNumbersKeepsAll(props: Properties)
    ensures DropNullNumbers(props) == props
    decreases |props|
  {
    if props != [] {
      NoValueIsNullFloat(props[0].value);
      DropNullNumbersKeepsAll(props[1..]);
      assert props == [props[0]] + props[1..];
    }
  }

  /** The first entry for `column` decides what `Lookup` finds. */
  lemma {:induction false} LookupFinds(props: Properties, i: nat, column: Column)
    requires i < |props| && props[i].column == column
    requires forall j :: 0 <= j < i ==> props[j].column != column
    ensures Lookup(props, column) == Some(props[i].value)
    decreases i
  {
    if i > 0 {
      LookupFinds(props[1..], i - 1, column);
    }
  }

  /** Where the schema puts the columns that are read back or defaulted. */
  lemma SchemaLookups(r: LedgerRecord)
    ensures Lookup(Schema(r), Size) == Some(Number(r.size))
    ensures Lookup(Schema(r), EntryExitPrice) == Some(Number(r.price))
    ensures Lookup(Schema(r), Timestamp) == Some(Date(if r.timestamp.None? then 0 else r.timestamp.value))
    ensures Lookup(Schema(r), Subaccount) == Some(RichText(Some(if r.subaccount.None? then MainAccount else r.subaccount.value)))
  {
    var props := Schema(r);
    forall j | 0 <= j < 7
      ensures props[j].column != Subaccount
      ensures j < 6 ==> props[j].column != Timestamp
      ensures j < 3 ==> props[j].column != EntryExitPrice
      ensures j < 2 ==> props[j].column != Size
    {
      if j == 0 {} else if j == 1 {} else if j == 2 {} else if j == 3 {} else if j == 4 {} else if j == 5 {} else {}
    }
    LookupFinds(props, 2, Size);
    LookupFinds(props, 3, EntryExitPrice);
    LookupFinds(props, 6, Timestamp);
    LookupFinds(props, 7, Subaccount);
  }

  /** The titles of the eight columns are the source's dictionary keys. */
  lemma LedgerTitles()
    ensures Titles(LedgerColumns) == ["Symbol", "Side", "Size", "Entry/Exit Price", "Fee", "PnL", "Timestamp", "Subaccount"]
  {
    var titles := Titles(LedgerColumns);
    forall j | 0 <= j < 8
      ensures titles[j] == ["Symbol", "Side", "Size", "Entry/Exit Price", "Fee", "PnL", "Timestamp", "Subaccount"][j]
    {
      assert titles[j] == LedgerColumns[j].Title();
      if j == 0 {} else if j == 1 {} else if j == 2 {} else if j == 3 {} else if j == 4 {} else if j == 5 {} else if j == 6 {} else {}
    }
  }

  /** The schema writes the eight columns in the ledger's order. */
  lemma SchemaColumns(r: LedgerRecord)
    ensures Columns(Schema(r)) == LedgerColumns
    ensures Titles(Columns(Schema(r))) == ["Symbol", "Side", "Size", "Entry/Exit Price", "Fee", "PnL", "Timestamp", "Subaccount"]
  {
    var props := Schema(r);
    var columns := Columns(props);
    forall j | 0 <= j < 8
      ensures columns[j] == LedgerColumns[j]
    {
      assert columns[j] == props[j].column;
      if j == 0 {} else if j == 1 {} else if j == 2 {} else if j == 3 {} else if j == 4 {} else if j == 5 {} else if j == 6 {} else {}
    }
    LedgerTitles();
  }

  /** The mapping writes the eight columns in schema order, none dropped, a
      missing size or price as a null number, a missing subaccount as
      "Main Account" and a missing timestamp as the epoch. */
  lemma MappingKeepsAllColumns(r: LedgerRecord)
    ensures MapToProperties(r) == Schema(r)
    ensures Columns(MapToProperties(r)) == LedgerColumns
    ensures Lookup(MapToProperties(r), Size) == Some(Number(r.size))
    ensures Lookup(MapToProperties(r), EntryExitPrice) == Some(Number(r.price))
    ensures Lookup(MapToProperties(r), Timestamp) == Some(Date(if r.timestamp.None? then 0 else r.timestamp.value))
    ensures Lookup(MapToProperties(r), Subaccount) == Some(RichText(Some(if r.subaccount.None? then MainAccount else r.subaccount.value)))
  {
    DropNullNumbersKeepsAll(Schema(r));
    SchemaLookups(r);
    SchemaColumns(r);
  }

  // ---------------------------------------------------------------------------
  // The SDK oracle

  datatype ApiError = ApiError(code: string)

  datatype SortKey = Descending(column: Column)

  /** `databases.query(database_id, sorts, page_size, start_cursor)`. */
  datatype QueryRequest = QueryRequest(databaseId: string, sorts: seq<SortKey>, pageSize: nat, startCursor: Option<string>)

  datatype Page = Page(properties: Properties)

  datatype QueryResponse = QueryResponse(results: seq<Page>, hasMore: bool, nextCursor: Option<string>)

  type QueryReply = Result<QueryResponse, ApiError>

  /** `pages.create(parent={"database_id": ...}, properties=...)`. */
  datatype CreateRequest = CreateRequest(databaseId: string, properties: Properties)

  /** What the client raises: a wrapped `NotionApiException`, an `APIResponseError`
      that escapes unwrapped, or a lookup failure on a malformed page. */
  datatype ClientError =
    | NotionApiException(cause: ApiError)
    | ApiResponseError(cause: ApiError)
    | MalformedPage

  /** What the server answers to the n-th query: the scripted reply, and past
      the script an empty last page. */
  function QueryReplyAt(queryReplies: seq<QueryReply>, n: nat): QueryReply {
    if n < |queryReplies| then queryReplies[n] else Ok(QueryResponse([], false, None))
  }

  /** What the server answers to the n-th create: the scripted reply (None =
      created), and past the script success. */
  function CreateReplyAt(createReplies: seq<Option<ApiError>>, n: nat): Option<ApiError> {
    if n < |createReplies| then createReplies[n] else None
  }

  /** The Notion SDK as seen by the client: every request is logged in order,
      and the n-th query (create) of the run gets the n-th scripted reply. */
  class NotionSdk {
    var queries: seq<QueryRequest>
    var creates: seq<CreateRequest>
    const queryReplies: seq<QueryReply>
    const createReplies: seq<Option<ApiError>>

    constructor (queryReplies: seq<QueryReply>, createReplies: seq<Option<ApiError>>)
      ensures queries == [] && creates == []
      ensures this.queryReplies == queryReplies && this.createReplies == createReplies
    {
      this.queries := [];
      this.creates := [];
      this.queryReplies := queryReplies;
      this.createReplies := createReplies;
    }

    method Query(request: QueryRequest) returns (reply: QueryReply)
      modifies this`queries
      ensures queries == old(queries) + [request]
      ensures reply == QueryReplyAt(queryReplies, |old(queries)|)
    {
      reply := QueryReplyAt(queryReplies, |queries|);
      queries := queries + [request];
    }

    method Create(request: CreateRequest) returns (error: Option<ApiError>)
      modifies this`creates
      ensures creates == old(creates) + [request]
      ensures error == CreateReplyAt(createReplies, |old(creates)|)
    {
      error := CreateReplyAt(createReplies, |creates|);
      creates := creates + [request];
    }
  }

  // ---------------------------------------------------------------------------
  // get_last_sync_timestamp

  /** The request of `get_last_sync_timestamp`: newest first, one result. */
  function LastSyncRequest(databaseId: string, column: Column): QueryRequest {
    QueryRequest(databaseId, [Descending(column)], 1, None)
  }

  /** `results[0]["properties"][column]["date"]["start"]`, read back as milliseconds. */
  function ReadTimestamp(page: Page, column: Column): Result<int, ClientError> {
    match Lookup(page.properties, column)
    case Some(Date(ms)) => Ok(ms)
    case _ => Err(MalformedPage)
  }

  /** What `get_last_sync_timestamp` returns or raises for the reply to its query. */
  function LastSyncOutcome(reply: QueryReply, column: Column): (r: Result<Option<int>, ClientError>)
    ensures r == Ok(None) <==> reply.Ok? && reply.value.results == []
    ensures r.Err? && r.error.NotionApiException? <==> reply.Err?
    ensures r.Ok? && r.value.Some? ==>
      reply.Ok? && |reply.value.results| > 0 && ReadTimestamp(reply.value.results[0], column) == Ok(r.value.value)
    ensures reply.Ok? && reply.value.results != [] && ReadTimestamp(reply.value.results[0], column).Ok? ==>
      r == Ok(Some(ReadTimestamp(reply.value.results[0], column).value))
    ensures r == Err(MalformedPage) <==>
      reply.Ok? && reply.value.results != [] && ReadTimestamp(reply.value.results[0], column).Err?
  {
    match reply
    case Err(e) => Err(NotionApiException(e))
    case Ok(response) =>
      if response.results == [] then Ok(None)
      else
        match ReadTimestamp(response.results[0], column)
        case Ok(ms) => Ok(Some(ms))
        case Err(e) => Err(e)
  }

  /** A page written by `create_records` reads back the timestamp it was written
      with (0 for a record without one). */
  lemma LastSyncReadsBackTimestamp(r: LedgerRecord, more: seq<Page>, hasMore: bool, cursor: Option<string>)
    ensures LastSyncOutcome(Ok(QueryResponse([Page(MapToProperties(r))] + more, hasMore, cursor)), Timestamp)
      == Ok(Some(r.timestamp.GetOr(0)))
  {
    MappingKeepsAllColumns(r);
  }

  // ---------------------------------------------------------------------------
  // query_all_records

  /** A pagination request: no sort, full page, the given cursor. */
  function PageRequest(databaseId: string, cursor: Option<string>): QueryRequest {
    QueryRequest(databaseId, [], PageSize, cursor)
  }

  /** A reply after which the loop asks for another page. */
  predicate Continues(reply: QueryReply) {
    reply.Ok? && reply.value.hasMore
  }

  /** The results of replies `from` to `to - 1`, concatenated in request order. */
  function Results(queryReplies: seq<QueryReply>, from: nat, to: nat): seq<Page>
    requires from <= to
    requires forall i: nat :: from <= i < to ==> QueryReplyAt(queryReplies, i).Ok?
    decreases (to as int) - (from as int)
  {
    if from == to then [] else Results(queryReplies, from, to - 1) + QueryReplyAt(queryReplies, to - 1).value.results
  }

  /** Sending a run of create requests: the requests in order and the outcome. */
  datatype CreateTrace = CreateTrace(requests: seq<CreateRequest>, outcome: Result<(), ClientError>)

  /** What happens to one record whose first create request is the SDK's `n`-th:
      the number of requests sent for it (two after a `rate_limited` error) and
      the error that ends the batch, if any. */
  datatype Attempt = Attempt(sends: nat, failure: Option<ClientError>)

  function AttemptAt(createReplies: seq<Option<ApiError>>, n: nat): (a: Attempt)
    ensures 1 <= a.sends <= 2
  {
    match CreateReplyAt(createReplies, n)
    case None => Attempt(1, None)
    case Some(e) =>
      if e.code == RateLimited then
        match CreateReplyAt(createReplies, n + 1)
        case None => Attempt(2, None)
        case Some(e2) => Attempt(2, Some(ApiResponseError(e2)))
      else Attempt(1, Some(NotionApiException(e)))
  }

  /** `request` sent `count` times in a row (once, or twice with the retry). */
  function Repeat(request: CreateRequest, count: nat): (s: seq<CreateRequest>)
    requires count <= 2
    ensures |s| == count && forall i :: 0 <= i < count ==> s[i] == request
  {
    if count == 0 then [] else if count == 1 then [request] else [request, request]
  }

  /** The trace of `create_records` sending `requests`, one per record, when the
      next create request is the `base`-th one the SDK answers. */
  function CreateRun(requests: seq<CreateRequest>, createReplies: seq<Option<ApiError>>, base: nat): CreateTrace
    decreases |requests|
  {
    if requests == [] then CreateTrace([], Ok(()))
    else
      var attempt := AttemptAt(createReplies, base);
      var sent := Repeat(requests[0], attempt.sends);
      if attempt.failure.Some? then CreateTrace(sent, Err(attempt.failure.value))
      else Prepend(sent, CreateRun(requests[1..], createReplies, base + attempt.sends))
  }

  function Prepend(sent: seq<CreateRequest>, t: CreateTrace): CreateTrace {
    CreateTrace(sent + t.requests, t.outcome)
  }

  /** One record of `CreateRun`: its attempt's requests, then either the failure
      or the run of the remaining records. */
  lemma CreateRunStep(requests: seq<CreateRequest>, createReplies: seq<Option<ApiError>>, n: nat)
    requires requests != []
    ensures var attempt := AttemptAt(createReplies, n);
      var sent := Repeat(requests[0], attempt.sends);
      CreateRun(requests, createReplies, n) ==
        if attempt.failure.Some? then CreateTrace(sent, Err(attempt.failure.value))
        else Prepend(sent, CreateRun(requests[1..], createReplies, n + attempt.sends))
  {
  }

  lemma PrependTwice(a: seq<CreateRequest>, b: seq<CreateRequest>, t: CreateTrace)
    ensures Prepend(a, Prepend(b, t)) == Prepend(a + b, t)
  {
    assert a + (b + t.requests) == (a + b) + t.requests;
  }

  /** The trace from request `i` on, after the requests `sent` before it, is the
      trace after one more record's requests. */
  lemma CreateRunAdvance(requests: seq<CreateRequest>, i: nat, createReplies: seq<Option<ApiError>>, n: nat, sent: seq<CreateRequest>)
    requires i < |requests|
    ensures var attempt := AttemptAt(createReplies, n);
      var step := Repeat(requests[i], attempt.sends);
      Prepend(sent, CreateRun(requests[i..], createReplies, n)) ==
        if attempt.failure.Some? then CreateTrace(sent + step, Err(attempt.failure.value))
        else Prepend(sent + step, CreateRun(requests[i + 1..], createReplies, n + attempt.sends))
  {
    CreateRunStep(requests[i..], createReplies, n);
    assert requests[i..][0] == requests[i] && requests[i..][1..] == requests[i + 1..];
    var attempt := AttemptAt(createReplies, n);
    PrependTwice(sent, Repeat(requests[i], attempt.sends), CreateRun(requests[i + 1..], createReplies, n + attempt.sends));
  }

  /** One turn of the `create_records` loop: the trace still to come after the
      requests `sent`, once record `i` has had its one or two sends. */
  lemma CreateRecordsStep(requests: seq<CreateRequest>, i: nat, createReplies: seq<Option<ApiError>>, n: nat,
                          sent: seq<CreateRequest>, total: CreateTrace)
    requires i < |requests|
    requires total == Prepend(sent, CreateRun(requests[i..], createReplies, n))
    ensures var attempt := AttemptAt(createReplies, n);
      var sent' := sent + Repeat(requests[i], attempt.sends);
      && (attempt.failure.Some? ==> total == CreateTrace(sent', Err(attempt.failure.value)))
      && (attempt.failure.None? ==> total == Prepend(sent', CreateRun(requests[i + 1..], createReplies, n + attempt.sends)))
  {
    CreateRunAdvance(requests, i, createReplies, n, sent);
  }

  /** The requests `create_records` sends when nothing fails: one per record, in
      order, each carrying that record's mapped properties. */
  function CreateRequests(records: seq<LedgerRecord>, databaseId: string): (requests: seq<CreateRequest>)
    ensures |requests| == |records|
    ensures forall i {:trigger requests[i]} :: 0 <= i < |records| ==> requests[i] == CreateRequest(databaseId, MapToProperties(records[i]))
  {
    if records == [] then []
    else [CreateRequest(databaseId, MapToProperties(records[0]))] + CreateRequests(records[1..], databaseId)
  }

  /** With no API error, every request is sent once, in order. */
  lemma {:induction false} CreateRunWithoutErrors(requests: seq<CreateRequest>, createReplies: seq<Option<ApiError>>, base: nat)
    requires forall i: nat :: base <= i < base + |requests| ==> CreateReplyAt(createReplies, i).None?
    ensures CreateRun(requests, createReplies, base) == CreateTrace(requests, Ok(()))
    decreases |requests|
  {
    if requests != [] {
      CreateRunStep(requests, createReplies, base);
      CreateRunWithoutErrors(requests[1..], createReplies, base + 1);
      assert requests == [requests[0]] + requests[1..];
    }
  }

  /** At most two requests per record, at least one per record when the batch
      succeeds, and the first request sent is the first record's. */
  lemma {:induction false} CreateRunLength(requests: seq<CreateRequest>, createReplies: seq<Option<ApiError>>, base: nat)
    ensures var t := CreateRun(requests, createReplies, base);
      && |t.requests| <= 2 * |requests|
      && (t.outcome.Ok? ==> |requests| <= |t.requests|)
      && (requests != [] ==> t.requests != [] && t.requests[0] == requests[0])
    decreases |requests|
  {
    if requests != [] {
      var attempt := AttemptAt(createReplies, base);
      CreateRunStep(requests, createReplies, base);
      CreateRunLength(requests[1..], createReplies, base + attempt.sends);
    }
  }

  /** The requests of the first `|counts|` records, the `i`-th sent `counts[i]` times, in order. */
  function Expand(requests: seq<CreateRequest>, counts: seq<nat>): seq<CreateRequest>
    requires |counts| == |requests|
    requires forall i :: 0 <= i < |counts| ==> counts[i] <= 2
  {
    if counts == [] then [] else Repeat(requests[0], counts[0]) + Expand(requests[1..], counts[1..])
  }

  /** How many requests `CreateRun` sends for each record it reaches, in order. */
  function CreateCounts(requests: seq<CreateRequest>, createReplies: seq<Option<ApiError>>, base: nat): seq<nat>
    decreases |requests|
  {
    if requests == [] then []
    else
      var attempt := AttemptAt(createReplies, base);
      if attempt.failure.Some? then [attempt.sends]
      else [attempt.sends] + CreateCounts(requests[1..], createReplies, base + attempt.sends)
  }

  /** The requests a run sends are its records' requests repeated as often as
      `CreateCounts` says: once or twice each, for a prefix of the records that
      is the whole list when the run succeeds. */
  lemma {:induction false} CreateRunCounts(requests: seq<CreateRequest>, createReplies: seq<Option<ApiError>>, base: nat)
    ensures var counts := CreateCounts(requests, createReplies, base);
      && |counts| <= |requests|
      && (forall i :: 0 <= i < |counts| ==> 1 <= counts[i] <= 2)
      && (CreateRun(requests, createReplies, base).outcome.Ok? ==> |counts| == |requests|)
      && CreateRun(requests, createReplies, base).requests == Expand(requests[..|counts|], counts)
    decreases |requests|
  {
    if requests == [] {
      assert requests[..0] == [];
    } else {
      var attempt := AttemptAt(createReplies, base);
      var sent := Repeat(requests[0], attempt.sends);
      var counts := CreateCounts(requests, createReplies, base);
      CreateRunStep(requests, createReplies, base);
      if attempt.failure.Some? {
        assert counts == [attempt.sends];
        var prefix := requests[..1];
        assert prefix[1..] == [] && prefix[0] == requests[0];
        assert Expand(prefix, counts) == sent + Expand(prefix[1..], counts[1..]);
      } else {
        var next := base + attempt.sends;
        var more := CreateCounts(requests[1..], createReplies, next);
        CreateRunCounts(requests[1..], createReplies, next);
        assert counts == [attempt.sends] + more;
        assert counts[1..] == more;
        var prefix := requests[..|counts|];
        assert prefix[0] == requests[0] && prefix[1..] == requests[1..][..|more|];
        assert Expand(prefix, counts) == sent + Expand(prefix[1..], counts[1..]);
      }
    }
  }

  /** The requests sent are the records' requests in list order, each once or
      twice, up to the record that ended the batch (every record when it succeeds). */
  lemma CreateRunFollowsRecords(requests: seq<CreateRequest>, createReplies: seq<Option<ApiError>>, base: nat)
    ensures var t := CreateRun(requests, createReplies, base);
      exists counts: seq<nat> ::
        && |counts| <= |requests|
        && (forall i :: 0 <= i < |counts| ==> 1 <= counts[i] <= 2)
        && (t.outcome.Ok? ==> |counts| == |requests|)
        && t.requests == Expand(requests[..|counts|], counts)
  {
    CreateRunCounts(requests, createReplies, base);
  }

  /** A `rate_limited` create whose retry succeeds moves on to the next record:
      the record was sent twice and the batch continues after it. */
  lemma CreateRunRetrySucceeds(requests: seq<CreateRequest>, createReplies: seq<Option<ApiError>>, base: nat)
    requires requests != []
    requires CreateReplyAt(createReplies, base).Some? && CreateReplyAt(createReplies, base).value.code == RateLimited
    requires CreateReplyAt(createReplies, base + 1).None?
    ensures CreateRun(requests, createReplies, base) ==
      Prepend([requests[0], requests[0]], CreateRun(requests[1..], createReplies, base + 2))
  {
    CreateRunStep(requests, createReplies, base);
  }

  /** A request that got an error is followed only by a retry of the same
      request, and only when the error was `rate_limited`. */
  lemma {:induction false} CreateRunRetries(requests: seq<CreateRequest>, createReplies: seq<Option<ApiError>>, base: nat)
    ensures var t := CreateRun(requests, createReplies, base);
      forall i: nat :: base <= i < base + |t.requests| - 1 && CreateReplyAt(createReplies, i).Some? ==>
        CreateReplyAt(createReplies, i).value.code == RateLimited && t.requests[i - base + 1] == t.requests[i - base]
    decreases |requests|
  {
    if requests != [] {
      var t := CreateRun(requests, createReplies, base);
      var attempt := AttemptAt(createReplies, base);
      var sent := Repeat(requests[0], attempt.sends);
      CreateRunStep(requests, createReplies, base);
      if attempt.failure.None? {
        var next := base + attempt.sends;
        var rest := CreateRun(requests[1..], createReplies, next);
        CreateRunRetries(requests[1..], createReplies, next);
        assert t.requests == sent + rest.requests;
        forall i: nat | base <= i < base + |t.requests| - 1 && CreateReplyAt(createReplies, i).Some?
          ensures CreateReplyAt(createReplies, i).value.code == RateLimited && t.requests[i - base + 1] == t.requests[i - base]
        {
          if i >= next {
            assert t.requests[i - base] == rest.requests[i - next];
            assert t.requests[i - base + 1] == rest.requests[i - next + 1];
          }
        }
      }
    }
  }

  /** A batch fails on its last request: `NotionApiException` wraps that request's
      error, which is not `rate_limited`; an unwrapped `APIResponseError` is the
      failed retry after a `rate_limited` error. A batch that succeeds ends on a
      request that succeeded. */
  lemma {:induction false} CreateRunOutcome(requests: seq<CreateRequest>, createReplies: seq<Option<ApiError>>, base: nat)
    ensures var t := CreateRun(requests, createReplies, base);
      && (t.outcome.Err? && t.outcome.error.NotionApiException? ==>
            && t.requests != []
            && CreateReplyAt(createReplies, base + |t.requests| - 1) == Some(t.outcome.error.cause)
            && t.outcome.error.cause.code != RateLimited)
      && (t.outcome.Err? && t.outcome.error.ApiResponseError? ==>
            && |t.requests| >= 2
            && CreateReplyAt(createReplies, base + |t.requests| - 2).Some?
            && CreateReplyAt(createReplies, base + |t.requests| - 2).value.code == RateLimited
            && CreateReplyAt(createReplies, base + |t.requests| - 1) == Some(t.outcome.error.cause))
      && (t.outcome.Err? ==> !t.outcome.error.MalformedPage?)
      && (t.outcome.Ok? && t.requests != [] ==> CreateReplyAt(createReplies, base + |t.requests| - 1).None?)
    decreases |requests|
  {
    if requests != [] {
      var t := CreateRun(requests, createReplies, base);
      var attempt := AttemptAt(createReplies, base);
      var sent := Repeat(requests[0], attempt.sends);
      CreateRunStep(requests, createReplies, base);
      if attempt.failure.None? {
        var next := base + attempt.sends;
        var rest := CreateRun(requests[1..], createReplies, next);
        CreateRunOutcome(requests[1..], createReplies, next);
        assert t.requests == sent + rest.requests && t.outcome == rest.outcome;
        assert base + |t.requests| == next + |rest.requests|;
      }
    }
  }

  /** The client of one Notion database. */
  class NotionClient {
    const databaseId: string
    const sdk: NotionSdk

    constructor (databaseId: string, sdk: NotionSdk)
      ensures this.databaseId == databaseId && this.sdk == sdk
    {
      this.databaseId := databaseId;
      this.sdk := sdk;
    }

    /** `get_last_sync_timestamp(column)`: one newest-first query of page size 1;
        None exactly when the database is empty. */
    method GetLastSyncTimestamp(column: Column) returns (r: Result<Option<int>, ClientError>)
      modifies sdk`queries
      ensures sdk.queries == old(sdk.queries) + [LastSyncRequest(databaseId, column)]
      ensures r == LastSyncOutcome(QueryReplyAt(sdk.queryReplies, |old(sdk.queries)|), column)
    {
      var reply := sdk.Query(LastSyncRequest(databaseId, column));
      r := LastSyncOutcome(reply, column);
    }

    /** `query_all_records`: pages are requested with cursor None first and then
        with the previous reply's `next_cursor`, until the first reply without
        `has_more`; their results are concatenated in request order, and an API
        error on any page is raised as `NotionApiException`. */
    method QueryAllRecords() returns (r: Result<seq<Page>, ClientError>)
      modifies sdk`queries
      ensures |old(sdk.queries)| < |sdk.queries| && sdk.queries[..|old(sdk.queries)|] == old(sdk.queries)
      ensures forall j: nat :: |old(sdk.queries)| <= j < |sdk.queries| - 1 ==> Continues(QueryReplyAt(sdk.queryReplies, j))
      ensures !Continues(QueryReplyAt(sdk.queryReplies, |sdk.queries| - 1))
      ensures sdk.queries[|old(sdk.queries)|] == PageRequest(databaseId, None)
      ensures forall j: nat :: |old(sdk.queries)| < j < |sdk.queries| ==>
        QueryReplyAt(sdk.queryReplies, j - 1).Ok? &&
        sdk.queries[j] == PageRequest(databaseId, QueryReplyAt(sdk.queryReplies, j - 1).value.nextCursor)
      ensures QueryReplyAt(sdk.queryReplies, |sdk.queries| - 1).Err? ==>
        r == Err(NotionApiException(QueryReplyAt(sdk.queryReplies, |sdk.queries| - 1).error))
      ensures QueryReplyAt(sdk.queryReplies, |sdk.queries| - 1).Ok? ==>
        forall j: nat :: |old(sdk.queries)| <= j < |sdk.queries| ==> QueryReplyAt(sdk.queryReplies, j).Ok?
      ensures QueryReplyAt(sdk.queryReplies, |sdk.queries| - 1).Ok? ==>
        r == Ok(Results(sdk.queryReplies, |old(sdk.queries)|, |sdk.queries|))
    {
      var base := |sdk.queries|;
      ghost var last: nat := if base <= |sdk.queryReplies| then |sdk.queryReplies| else base;
      var allResults: seq<Page> := [];
      var hasMore := true;
      var startCursor: Option<string> := None;
      while hasMore
        invariant base <= |sdk.queries| && sdk.queries[..base] == old(sdk.queries)
        invariant forall j: nat :: base <= j < |sdk.queries| - 1 ==> Continues(QueryReplyAt(sdk.queryReplies, j))
        invariant forall j: nat :: base <= j < |sdk.queries| ==> QueryReplyAt(sdk.queryReplies, j).Ok?
        invariant hasMore <==> |sdk.queries| == base || Continues(QueryReplyAt(sdk.queryReplies, |sdk.queries| - 1))
        invariant hasMore ==> |sdk.queries| <= last
        invariant |sdk.queries| > base ==> sdk.queries[base] == PageRequest(databaseId, None)
        invariant forall j: nat :: base < j < |sdk.queries| ==>
          QueryReplyAt(sdk.queryReplies, j - 1).Ok? &&
          sdk.queries[j] == PageRequest(databaseId, QueryReplyAt(sdk.queryReplies, j - 1).value.nextCursor)
        invariant startCursor == if |sdk.queries| == base then None else QueryReplyAt(sdk.queryReplies, |sdk.queries| - 1).value.nextCursor
        invariant allResults == Results(sdk.queryReplies, base, |sdk.queries|)
        decreases last + 1 - |sdk.queries|
      {
        var reply := sdk.Query(PageRequest(databaseId, startCursor));
        if reply.Err? {
          return Err(NotionApiException(reply.error));
        }
        allResults := allResults + reply.value.results;
        hasMore := reply.value.hasMore;
        startCursor := reply.value.nextCursor;
      }
      r := Ok(allResults);
    }

    /** The try/except body of the `create_records` loop for one record: create
        the page and, after a `rate_limited` error, create it once more with the
        same properties. */
    method CreateWithRetry(request: CreateRequest) returns (failure: Option<ClientError>)
      modifies sdk`creates
      ensures sdk.creates == old(sdk.creates) + Repeat(request, AttemptAt(sdk.createReplies, |old(sdk.creates)|).sends)
      ensures failure == AttemptAt(sdk.createReplies, |old(sdk.creates)|).failure
    {
      var error := sdk.Create(request);
      if error.Some? {
        if error.value.code == RateLimited {
          var retryError := sdk.Create(request);
          failure := if retryError.Some? then Some(ApiResponseError(retryError.value)) else None;
        } else {
          failure := Some(NotionApiException(error.value));
        }
      } else {
        failure := None;
      }
    }

    /** `create_records(records)`: one create per record in list order with the
        mapped properties, one retry of the same properties after `rate_limited`,
        and the first unrecovered error ends the batch. */
    method CreateRecords(records: seq<LedgerRecord>) returns (r: Result<(), ClientError>)
      modifies sdk`creates
      ensures sdk.creates == old(sdk.creates) + CreateRun(CreateRequests(records, databaseId), sdk.createReplies, |old(sdk.creates)|).requests
      ensures r == CreateRun(CreateRequests(records, databaseId), sdk.createReplies, |old(sdk.creates)|).outcome
    {
      ghost var requests := CreateRequests(records, databaseId);
      ghost var replies := sdk.createReplies;
      ghost var total := CreateRun(requests, replies, |sdk.creates|);
      ghost var sent: seq<CreateRequest> := [];
      var i := 0;
      while i < |records|
        invariant 0 <= i <= |records|
        invariant sdk.creates == old(sdk.creates) + sent
        invariant total == Prepend(sent, CreateRun(requests[i..], replies, |sdk.creates|))
      {
        ghost var n := |sdk.creates|;
        ghost var attempt := AttemptAt(replies, n);
        CreateRecordsStep(requests, i, replies, n, sent, total);
        var request := CreateRequest(databaseId, MapToProperties(records[i]));
        assert request == requests[i];
        var failure := CreateWithRetry(request);
        ghost var step := Repeat(request, attempt.sends);
        AppendAssociative(old(sdk.creates), sent, step);
        sent := sent + step;
        assert |sdk.creates| == n + attempt.sends;
        if failure.Some? {
          assert total == CreateTrace(sent, Err(failure.value));
          return Err(failure.value);
        }
        assert total == Prepend(sent, CreateRun(requests[i + 1..], replies, |sdk.creates|));
        i := i + 1;
      }
      assert requests[i..] == [] && sent + [] == sent;
      r := Ok(());
    }
  }
}
