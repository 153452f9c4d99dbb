/** `SyncService.run_sync`: fetch the exchange's transaction log from the fixed
    backfill start to now in seven-day chunks, keep the trades whose realised
    PnL reaches the threshold, sort them by time and write them to Notion. */
module Sync {
  import opened Common
  import opened Chunking
  import opened Sorting
  import opened Notion

  /** 2026-01-01T00:00:00Z in epoch milliseconds: the start every sync is forced to. */
  const BackfillStartMs: int := 1767225600000

  /** Rows whose |change + fee| is below this are dropped as dust. */
  const PnlThreshold: real := 0.5

  /** The only transaction type that is kept. */
  const TradeType: string := "TRADE"

  /** One row of the exchange's transaction log, as a dictionary whose keys may
      be missing (None). Amounts are reals and the time is in milliseconds. */
  datatype RawTx = RawTx(
    txType: Option<string>,
    symbol: Option<string>,
    side: Option<string>,
    change: Option<real>,
    fee: Option<real>,
    qty: Option<real>,
    tradePrice: Option<real>,
    transactionTime: Option<int>)

  /** The arguments of one `fetch_transaction_log` call; both times inclusive. */
  datatype LogQuery = LogQuery(accountType: string, category: string, startTime: int, endTime: int)

  /** The query for one chunk: the unified account's linear contracts. */
  function ChunkQuery(c: Chunk): LogQuery {
    LogQuery("UNIFIED", "linear", c.start, c.end)
  }

  /** What a fetch gives back: the rows, or an exception. */
  datatype FetchReply = Fetched(rows: seq<RawTx>) | FetchFailed

  /** The `n`-th reply of the exchange: the script entry, or no rows past its end. */
  function FetchReplyAt(replies: seq<FetchReply>, n: nat): FetchReply {
    if n < |replies| then replies[n] else Fetched([])
  }

  /** The exchange adapter: it records the queries it is asked and answers the
      `n`-th one from a script of replies fixed when it is built. */
  class Exchange {
    var queries: seq<LogQuery>
    const replies: seq<FetchReply>

    constructor (replies: seq<FetchReply>)
      ensures queries == [] && this.replies == replies
    {
      this.queries := [];
      this.replies := replies;
    }

    method FetchTransactionLog(query: LogQuery) returns (reply: FetchReply)
      modifies this`queries
      ensures queries == old(queries) + [query]
      ensures reply == FetchReplyAt(replies, |old(queries)|)
    {
      reply := FetchReplyAt(replies, |queries|);
      queries := queries + [query];
    }
  }

  // ---------------------------------------------------------------------------
  // The chunked fetch loop

  /** The queries the fetch loop sends and the rows it gathers. */
  datatype FetchTrace = FetchTrace(queries: seq<LogQuery>, rows: seq<RawTx>)

  /** The fetch loop over the chunks of `plan`, answered from reply `n` on: each
      chunk is queried in turn, its rows are appended, and the first failure
      ends the loop while the rows gathered so far are kept. */
  function FetchRun(plan: seq<Chunk>, replies: seq<FetchReply>, n: nat): FetchTrace
    decreases |plan|
  {
    if plan == [] then FetchTrace([], [])
    else
      match FetchReplyAt(replies, n)
      case FetchFailed => FetchTrace([ChunkQuery(plan[0])], [])
      case Fetched(rows) => Join([ChunkQuery(plan[0])], rows, FetchRun(plan[1..], replies, n + 1))
  }

  function Join(asked: seq<LogQuery>, rows: seq<RawTx>, t: FetchTrace): FetchTrace {
    FetchTrace(asked + t.queries, rows + t.rows)
  }

  lemma JoinTwice(a: seq<LogQuery>, r: seq<RawTx>, b: seq<LogQuery>, s: seq<RawTx>, t: FetchTrace)
    ensures Join(a, r, Join(b, s, t)) == Join(a + b, r + s, t)
  {
    AppendAssociative(a, b, t.queries);
    AppendAssociative(r, s, t.rows);
  }

  /** One turn of the loop at `current_start == start`. */
  lemma FetchRunStep(start: int, windowEnd: int, replies: seq<FetchReply>, n: nat)
    requires start < windowEnd
    ensures var q := ChunkQuery(Chunk(start, ChunkEnd(start, windowEnd)));
      FetchRun(ChunkPlan(start, windowEnd), replies, n) ==
        match FetchReplyAt(replies, n)
        case FetchFailed => FetchTrace([q], [])
        case Fetched(rows) => Join([q], rows, FetchRun(ChunkPlan(ChunkEnd(start, windowEnd) + 1, windowEnd), replies, n + 1))
  {
    var plan := ChunkPlan(start, windowEnd);
    assert plan[0] == Chunk(start, ChunkEnd(start, windowEnd));
    assert plan[1..] == ChunkPlan(ChunkEnd(start, windowEnd) + 1, windowEnd);
  }

  /** The `n`-th query is for the `n`-th chunk, and a non-empty plan sends at least one query. */
  lemma {:induction false} FetchRunFollowsPlan(plan: seq<Chunk>, replies: seq<FetchReply>, n: nat)
    ensures var t := FetchRun(plan, replies, n);
      && |t.queries| <= |plan|
      && (plan != [] ==> |t.queries| > 0)
      && (forall k :: 0 <= k < |t.queries| ==> t.queries[k] == ChunkQuery(plan[k]))
    decreases |plan|
  {
    if plan != [] && FetchReplyAt(replies, n).Fetched? {
      FetchRunFollowsPlan(plan[1..], replies, n + 1);
      var t, rest := FetchRun(plan, replies, n), FetchRun(plan[1..], replies, n + 1);
      assert t.queries == [ChunkQuery(plan[0])] + rest.queries;
      forall k | 0 <= k < |t.queries|
        ensures t.queries[k] == ChunkQuery(plan[k])
      {
        if k > 0 {
          assert t.queries[k] == rest.queries[k - 1] && plan[1..][k - 1] == plan[k];
        }
      }
    }
  }

  /** The loop stops at the first failed fetch: every query before the last one
      was answered, and fewer chunks than planned are queried only when the last
      query failed. */
  lemma {:induction false} FetchRunStopsAtFailure(plan: seq<Chunk>, replies: seq<FetchReply>, n: nat)
    ensures var t := FetchRun(plan, replies, n);
      && (forall j :: n <= j < n + |t.queries| - 1 ==> FetchReplyAt(replies, j).Fetched?)
      && (0 < |t.queries| < |plan| ==> FetchReplyAt(replies, n + |t.queries| - 1).FetchFailed?)
    decreases |plan|
  {
    if plan != [] && FetchReplyAt(replies, n).Fetched? {
      FetchRunStopsAtFailure(plan[1..], replies, n + 1);
      FetchRunFollowsPlan(plan[1..], replies, n + 1);
    }
  }

  /** The rows of reply `from` up to reply `to` (exclusive); a failed reply adds none. */
  function RowsOf(replies: seq<FetchReply>, from: nat, to: nat): seq<RawTx>
    decreases to - from
  {
    if to <= from then []
    else
      match FetchReplyAt(replies, from)
      case Fetched(rows) => rows + RowsOf(replies, from + 1, to)
      case FetchFailed => RowsOf(replies, from + 1, to)
  }

  /** The rows gathered are those of every answered query, in order: a failure
      discards nothing fetched before it. */
  lemma {:induction false} FetchRunRows(plan: seq<Chunk>, replies: seq<FetchReply>, n: nat)
    ensures var t := FetchRun(plan, replies, n);
      t.rows == RowsOf(replies, n, n + |t.queries|)
    decreases |plan|
  {
    if plan != [] && FetchReplyAt(replies, n).Fetched? {
      FetchRunRows(plan[1..], replies, n + 1);
    }
  }

  /** When no fetch fails, every chunk of the plan is queried and all rows are kept. */
  lemma FetchRunWithoutFailures(plan: seq<Chunk>, replies: seq<FetchReply>, n: nat)
    requires forall j :: n <= j < n + |plan| ==> FetchReplyAt(replies, j).Fetched?
    ensures var t := FetchRun(plan, replies, n);
      && |t.queries| == |plan|
      && (forall k :: 0 <= k < |plan| ==> t.queries[k] == ChunkQuery(plan[k]))
      && t.rows == RowsOf(replies, n, n + |plan|)
  {
    FetchRunFollowsPlan(plan, replies, n);
    FetchRunStopsAtFailure(plan, replies, n);
    FetchRunRows(plan, replies, n);
  }

  // ---------------------------------------------------------------------------
  // Transforming rows into ledger records

  /** The realised PnL of a row: change plus fee, each 0.0 when missing. */
  function Pnl(tx: RawTx): real {
    tx.change.GetOr(0.0) + tx.fee.GetOr(0.0)
  }

  /** What the transform loop does with one row: skip it, append a record, or
      raise because a kept row has no `transactionTime` (`int(None)`). */
  datatype Transformed = Skipped | Kept(record: LedgerRecord) | MissingTime

  function Transform(tx: RawTx): (t: Transformed)
    ensures t.Skipped? <==> tx.txType != Some(TradeType) || Abs(Pnl(tx)) < PnlThreshold
    ensures t.MissingTime? <==> !t.Skipped? && tx.transactionTime.None?
    ensures t.Kept? ==>
      && t.record.pnl == Some(Pnl(tx)) && PnlThreshold <= Abs(Pnl(tx))
      && t.record.fee == Some(tx.fee.GetOr(0.0))
      && t.record.timestamp == tx.transactionTime
      && t.record.subaccount == Some(MainAccount)
      && t.record.symbol == tx.symbol && t.record.side == tx.side
      && (tx.qty.Some? ==> t.record.size == tx.qty) && (tx.qty.None? ==> t.record.size == Some(0.0))
      && (tx.tradePrice.Some? ==> t.record.price == tx.tradePrice) && (tx.tradePrice.None? ==> t.record.price == Some(0.0))
  {
    if tx.txType != Some(TradeType) then Skipped
    else if Abs(Pnl(tx)) < PnlThreshold then Skipped
    else if tx.transactionTime.None? then MissingTime
    else Kept(LedgerRecord(
      tx.symbol,
      tx.side,
      Some(tx.qty.GetOr(0.0)),
      Some(tx.tradePrice.GetOr(0.0)),
      Some(tx.fee.GetOr(0.0)),
      Some(Pnl(tx)),
      tx.transactionTime,
      Some(MainAccount)))
  }

  /** Why `run_sync` raises. */
  datatype SyncFailure = MissingTransactionTime | WriteFailed(cause: ClientError)

  /** The records the transform loop builds from `txs`, in row order, or the
      exception that stops it. */
  function Normalise(txs: seq<RawTx>): Result<seq<LedgerRecord>, SyncFailure>
    decreases |txs|
  {
    if txs == [] then Ok([])
    else
      match Normalise(txs[..|txs| - 1])
      case Err(e) => Err(e)
      case Ok(records) =>
        match Transform(txs[|txs| - 1])
        case Skipped => Ok(records)
        case MissingTime => Err(MissingTransactionTime)
        case Kept(r) => Ok(records + [r])
  }

  /** Once a prefix has raised, the whole loop has raised the same way. */
  lemma {:induction false} NormaliseStopsAtFault(txs: seq<RawTx>, i: nat)
    requires i <= |txs|
    requires Normalise(txs[..i]).Err?
    ensures Normalise(txs) == Normalise(txs[..i])
    decreases |txs| - i
  {
    if i < |txs| {
      var front := txs[..|txs| - 1];
      assert front[..i] == txs[..i];
      NormaliseStopsAtFault(front, i);
    } else {
      assert txs[..i] == txs;
    }
  }

  /** The loop raises exactly when some kept row lacks its time. */
  lemma {:induction false} NormaliseOkIff(txs: seq<RawTx>)
    ensures Normalise(txs).Ok? <==> forall i :: 0 <= i < |txs| ==> !Transform(txs[i]).MissingTime?
    decreases |txs|
  {
    if txs != [] {
      var front := txs[..|txs| - 1];
      NormaliseOkIff(front);
      assert forall i :: 0 <= i < |front| ==> front[i] == txs[i];
    }
  }

  /** Rows are transformed independently: the records of `a + b` are those of
      `a` followed by those of `b`. */
  lemma {:induction false} NormaliseAppend(a: seq<RawTx>, b: seq<RawTx>)
    ensures Normalise(a + b) ==
      match Normalise(a)
      case Err(e) => Err(e)
      case Ok(ra) =>
        match Normalise(b)
        case Err(e) => Err(e)
        case Ok(rb) => Ok(ra + rb)
    decreases |b|
  {
    if b == [] {
      assert a + b == a;
      if Normalise(a).Ok? {
        assert Normalise(a).value + [] == Normalise(a).value;
      }
    } else {
      var front := b[..|b| - 1];
      NormaliseAppend(a, front);
      assert (a + b)[..|a + b| - 1] == a + front;
      assert (a + b)[|a + b| - 1] == b[|b| - 1];
      if Normalise(a).Ok? && Normalise(front).Ok? && Transform(b[|b| - 1]).Kept? {
        AppendAssociative(Normalise(a).value, Normalise(front).value, [Transform(b[|b| - 1]).record]);
      }
    }
  }

  /** Every record comes from a kept row, and every kept row gives a record. */
  lemma {:induction false} NormaliseMembers(txs: seq<RawTx>, records: seq<LedgerRecord>)
    requires Normalise(txs) == Ok(records)
    ensures forall r :: r in records ==> exists i :: 0 <= i < |txs| && Transform(txs[i]) == Kept(r)
    ensures forall i :: 0 <= i < |txs| && Transform(txs[i]).Kept? ==> Transform(txs[i]).record in records
    decreases |txs|
  {
    if txs != [] {
      var front := txs[..|txs| - 1];
      var last := txs[|txs| - 1];
      var earlier := Normalise(front).value;
      NormaliseMembers(front, earlier);
      assert forall i :: 0 <= i < |front| ==> front[i] == txs[i];
      assert records == earlier || records == earlier + [Transform(last).record];
    }
  }

  // ---------------------------------------------------------------------------
  // Sorting and the whole sync

  /** The sort key of `notion_records.sort`. */
  function TimestampKey(r: LedgerRecord): int {
    r.timestamp.GetOr(0)
  }

  /** The list handed to `create_records`: the transformed records, stably
      sorted by timestamp, or the exception of the transform loop. */
  function SyncBatch(txs: seq<RawTx>): Result<seq<LedgerRecord>, SyncFailure> {
    match Normalise(txs)
    case Err(e) => Err(e)
    case Ok(records) => Ok(StableSort(records, TimestampKey))
  }

  /** The batch is sorted by time, holds exactly the transformed records, keeps
      the row order among records of the same instant, and is empty exactly
      when no row was kept. */
  lemma SyncBatchOrdered(txs: seq<RawTx>, records: seq<LedgerRecord>)
    requires Normalise(txs) == Ok(records)
    ensures SyncBatch(txs).Ok?
    ensures var batch := SyncBatch(txs).value;
      && SortedBy(batch, TimestampKey)
      && multiset(batch) == multiset(records)
      && (forall k :: WithKey(batch, TimestampKey, k) == WithKey(records, TimestampKey, k))
      && (batch == [] <==> records == [])
  {
    var batch := StableSort(records, TimestampKey);
    StableSortSorted(records, TimestampKey);
    StableSortPermutes(records, TimestampKey);
    forall k
      ensures WithKey(batch, TimestampKey, k) == WithKey(records, TimestampKey, k)
    {
      StableSortStable(records, TimestampKey, k);
    }
    assert |multiset(batch)| == |batch| && |multiset(records)| == |records|;
  }

  /** Every record written is a trade of the main account whose PnL reaches the
      threshold and whose time is known, and comes from one of the rows. */
  lemma SyncBatchRecords(txs: seq<RawTx>, r: LedgerRecord)
    requires SyncBatch(txs).Ok? && r in SyncBatch(txs).value
    ensures exists i :: 0 <= i < |txs| && txs[i].txType == Some(TradeType) && Transform(txs[i]) == Kept(r)
    ensures r.subaccount == Some(MainAccount) && r.timestamp.Some?
    ensures r.pnl.Some? && PnlThreshold <= Abs(r.pnl.value)
  {
    var records := Normalise(txs).value;
    SyncBatchOrdered(txs, records);
    assert r in multiset(SyncBatch(txs).value);
    NormaliseMembers(txs, records);
    var i :| 0 <= i < |txs| && Transform(txs[i]) == Kept(r);
    assert txs[i].txType == Some(TradeType);
  }

  /** How `run_sync` ends. */
  datatype SyncOutcome = NothingToWrite | Synced | Raised(failure: SyncFailure)

  class SyncService {
    const exchange: Exchange
    const notion: NotionClient

    constructor (exchange: Exchange, notion: NotionClient)
      ensures this.exchange == exchange && this.notion == notion
    {
      this.exchange := exchange;
      this.notion := notion;
    }

    /** `run_sync` at the instant `nowMs`: fetch from the backfill start to now,
        transform, sort, and call `create_records` once when there is anything
        to write. */
    method RunSync(nowMs: int) returns (outcome: SyncOutcome)
      modifies exchange`queries, notion.sdk`creates
      ensures exchange.queries == old(exchange.queries) +
        FetchRun(ChunkPlan(BackfillStartMs, nowMs), exchange.replies, |old(exchange.queries)|).queries
      ensures var batch := SyncBatch(FetchRun(ChunkPlan(BackfillStartMs, nowMs), exchange.replies, |old(exchange.queries)|).rows);
        if batch.Err? then
          outcome == Raised(batch.error) && notion.sdk.creates == old(notion.sdk.creates)
        else if batch.value == [] then
          outcome == NothingToWrite && notion.sdk.creates == old(notion.sdk.creates)
        else
          var run := CreateRun(CreateRequests(batch.value, notion.databaseId), notion.sdk.createReplies, |old(notion.sdk.creates)|);
          && notion.sdk.creates == old(notion.sdk.creates) + run.requests
          && outcome == if run.outcome.Ok? then Synced else Raised(WriteFailed(run.outcome.error))
    {
      var txs := FetchTransactions(BackfillStartMs, nowMs);
      var built := BuildRecords(txs);
      if built.Err? {
        return Raised(built.error);
      }
      var records := StableSort(built.value, TimestampKey);
      if records == [] {
        return NothingToWrite;
      }
      var written := notion.CreateRecords(records);
      outcome := if written.Ok? then Synced else Raised(WriteFailed(written.error));
    }

    /** The chunk loop: query `[current_start, current_end]`, append its rows,
        stop at the first exception, move to `current_end + 1`. */
    method FetchTransactions(startMs: int, endMs: int) returns (txs: seq<RawTx>)
      modifies exchange`queries
      ensures exchange.queries == old(exchange.queries) + FetchRun(ChunkPlan(startMs, endMs), exchange.replies, |old(exchange.queries)|).queries
      ensures txs == FetchRun(ChunkPlan(startMs, endMs), exchange.replies, |old(exchange.queries)|).rows
    {
      ghost var replies := exchange.replies;
      ghost var total := FetchRun(ChunkPlan(startMs, endMs), replies, |exchange.queries|);
      ghost var asked: seq<LogQuery> := [];
      txs := [];
      var currentStart := startMs;
      while currentStart < endMs
        invariant exchange.queries == old(exchange.queries) + asked
        invariant total == Join(asked, txs, FetchRun(ChunkPlan(currentStart, endMs), replies, |exchange.queries|))
        decreases endMs - currentStart
      {
        var currentEnd := Min(currentStart + ChunkSpanMs - 1, endMs);
        ghost var n := |exchange.queries|;
        FetchRunStep(currentStart, endMs, replies, n);
        var query := LogQuery("UNIFIED", "linear", currentStart, currentEnd);
        var reply := exchange.FetchTransactionLog(query);
        AppendAssociative(old(exchange.queries), asked, [query]);
        if reply.FetchFailed? {
          assert txs + [] == txs;
          return;
        }
        JoinTwice(asked, txs, [query], reply.rows, FetchRun(ChunkPlan(currentEnd + 1, endMs), replies, n + 1));
        asked := asked + [query];
        txs := txs + reply.rows;
        currentStart := currentEnd + 1;
      }
      assert asked + [] == asked && txs + [] == txs;
    }

    /** The transform loop over `all_transactions`. */
    static method BuildRecords(txs: seq<RawTx>) returns (r: Result<seq<LedgerRecord>, SyncFailure>)
      ensures r == Normalise(txs)
    {
      var records: seq<LedgerRecord> := [];
      for i := 0 to |txs|
        invariant Normalise(txs[..i]) == Ok(records)
      {
        assert txs[..i + 1][..i] == txs[..i];
        var t := Transform(txs[i]);
        if t.MissingTime? {
          NormaliseStopsAtFault(txs, i + 1);
          return Err(MissingTransactionTime);
        }
        if t.Kept? {
          records := records + [t.record];
        }
      }
      assert txs[..|txs|] == txs;
      r := Ok(records);
    }
  }
}
