/** The partition of a sync window `[start, end]` (integer milliseconds) into
    query windows of at most seven days, as `run_sync` computes it with
    `current_start` and `current_end`. */
module Chunking {
  import opened Common

  /** Seven days in milliseconds: the exchange's per-query window limit. */
  const ChunkSpanMs: int := 7 * 24 * 60 * 60 * 1000

  /** One query window; both bounds are inclusive. */
  datatype Chunk = Chunk(start: int, end: int)

  /** `current_end` for a chunk that starts at `start`. */
  function ChunkEnd(start: int, windowEnd: int): int {
    Min(start + ChunkSpanMs - 1, windowEnd)
  }

  /** The chunks the while-loop visits, in order, when no fetch fails: it keeps
      going while `current_start < end_time_ms` and moves to `current_end + 1`. */
  function ChunkPlan(start: int, windowEnd: int): seq<Chunk>
    decreases windowEnd - start
  {
    if start < windowEnd then
      [Chunk(start, ChunkEnd(start, windowEnd))] + ChunkPlan(ChunkEnd(start, windowEnd) + 1, windowEnd)
    else
      []
  }

  /** Whether instant `t` lies in some chunk of `plan`. */
  ghost predicate Covered(plan: seq<Chunk>, t: int) {
    exists i :: 0 <= i < |plan| && plan[i].start <= t <= plan[i].end
  }

  /** The last instant the plan reaches: the window end, except when the window
      length is a whole number of chunks, where the loop stops one instant short. */
  function CoverageEnd(start: int, windowEnd: int): int {
    if (windowEnd - start) % ChunkSpanMs == 0 then windowEnd - 1 else windowEnd
  }

  /** The first chunk starts at the window start and each next chunk starts
      right after the previous one ends. */
  lemma {:induction false} PlanContiguous(start: int, windowEnd: int)
    ensures var plan := ChunkPlan(start, windowEnd);
      && (|plan| > 0 <==> start < windowEnd)
      && (|plan| > 0 ==> plan[0].start == start)
      && (forall i, j :: 0 <= i && j == i + 1 && j < |plan| ==> plan[j].start == plan[i].end + 1)
    decreases windowEnd - start
  {
    if start < windowEnd {
      var next := ChunkEnd(start, windowEnd) + 1;
      PlanContiguous(next, windowEnd);
      var plan, rest := ChunkPlan(start, windowEnd), ChunkPlan(next, windowEnd);
      assert plan == [Chunk(start, next - 1)] + rest;
      forall i, j | 0 <= i && j == i + 1 && j < |plan|
        ensures plan[j].start == plan[i].end + 1
      {
        if i > 0 {
          assert plan[i] == rest[i - 1] && plan[j] == rest[j - 1];
        }
      }
    }
  }

  /** Every chunk lies inside the window, is non-empty and spans at most seven days. */
  lemma {:induction false} PlanBounds(start: int, windowEnd: int)
    ensures forall c :: c in ChunkPlan(start, windowEnd) ==>
      start <= c.start <= c.end <= windowEnd && c.end - c.start + 1 <= ChunkSpanMs
    decreases windowEnd - start
  {
    if start < windowEnd {
      PlanBounds(ChunkEnd(start, windowEnd) + 1, windowEnd);
    }
  }

  /** The chunks are pairwise disjoint: an earlier chunk ends before a later one starts. */
  lemma {:induction false} PlanDisjoint(start: int, windowEnd: int)
    ensures forall i, j :: 0 <= i < j < |ChunkPlan(start, windowEnd)| ==>
      ChunkPlan(start, windowEnd)[i].end < ChunkPlan(start, windowEnd)[j].start
    decreases windowEnd - start
  {
    if start < windowEnd {
      var next := ChunkEnd(start, windowEnd) + 1;
      var plan, rest := ChunkPlan(start, windowEnd), ChunkPlan(next, windowEnd);
      assert plan == [Chunk(start, next - 1)] + rest;
      PlanDisjoint(next, windowEnd);
      PlanBounds(next, windowEnd);
      forall i, j | 0 <= i < j < |plan|
        ensures plan[i].end < plan[j].start
      {
        assert plan[j] == rest[j - 1] && plan[j] in rest;
        if i > 0 {
          assert plan[i] == rest[i - 1];
          assert rest[i - 1].end < rest[j - 1].start;
        } else {
          assert plan[i].end == next - 1;
          assert next <= plan[j].start;
        }
      }
    }
  }

  /** The number of chunks is the window length divided by seven days, rounded up. */
  lemma {:induction false} PlanCount(start: int, windowEnd: int)
    ensures |ChunkPlan(start, windowEnd)| ==
      if start < windowEnd then (windowEnd - start + ChunkSpanMs - 1) / ChunkSpanMs else 0
    decreases windowEnd - start
  {
    if start < windowEnd {
      var next := ChunkEnd(start, windowEnd) + 1;
      PlanCount(next, windowEnd);
      if next < windowEnd {
        assert next == start + ChunkSpanMs;
        assert (windowEnd - start + ChunkSpanMs - 1) / ChunkSpanMs
          == (windowEnd - next + ChunkSpanMs - 1) / ChunkSpanMs + 1;
      }
    }
  }

  /** Moving the start forward by one chunk does not change the window length modulo seven days. */
  lemma ShiftByChunk(len: int)
    ensures (len + ChunkSpanMs) % ChunkSpanMs == len % ChunkSpanMs
  {
  }

  /** Without fetch failures the chunks cover exactly `[start, CoverageEnd]`:
      the whole window unless its length is a multiple of seven days. */
  lemma {:induction false} PlanCoverage(start: int, windowEnd: int, t: int)
    ensures Covered(ChunkPlan(start, windowEnd), t) <==>
      start < windowEnd && start <= t <= CoverageEnd(start, windowEnd)
    decreases windowEnd - start
  {
    var plan := ChunkPlan(start, windowEnd);
    if start < windowEnd {
      var next := ChunkEnd(start, windowEnd) + 1;
      var rest := ChunkPlan(next, windowEnd);
      assert plan == [Chunk(start, next - 1)] + rest;
      PlanCoverage(next, windowEnd, t);
      if next < windowEnd {
        ShiftByChunk(windowEnd - next);
        assert CoverageEnd(start, windowEnd) == CoverageEnd(next, windowEnd);
      } else if next == windowEnd {
        assert windowEnd - start == ChunkSpanMs;
        assert CoverageEnd(start, windowEnd) == windowEnd - 1;
      } else {
        assert 0 < windowEnd - start < ChunkSpanMs;
        assert CoverageEnd(start, windowEnd) == windowEnd;
      }
      assert Covered(plan, t) <==> (start <= t < next || Covered(rest, t)) by {
        if Covered(plan, t) {
          var i :| 0 <= i < |plan| && plan[i].start <= t <= plan[i].end;
          if i > 0 {
            assert rest[i - 1] == plan[i];
          }
        }
        if start <= t < next {
          assert plan[0].start <= t <= plan[0].end;
        } else if Covered(rest, t) {
          var i :| 0 <= i < |rest| && rest[i].start <= t <= rest[i].end;
          assert plan[i + 1] == rest[i];
        }
      }
    }
  }

  /** The final instant `windowEnd` is fetched exactly when the window length
      is not a multiple of seven days. */
  lemma WindowEndCovered(start: int, windowEnd: int)
    requires start < windowEnd
    ensures Covered(ChunkPlan(start, windowEnd), windowEnd) <==> (windowEnd - start) % ChunkSpanMs != 0
  {
    PlanCoverage(start, windowEnd, windowEnd);
  }
}
