/** Where a BSC tick scans: block arithmetic of `scan`, `rewindOnce` and `finalityLine`
    (internal/usecases/chain/bsc_watcher/usecase.go). */
module BscCursor {
  import opened Query

  const MAX_CHUNKS_PER_TICK: nat := 10
  const UINT64: nat := 0x1_0000_0000_0000_0000

  /** Block numbers fit the BIGINT column. */
  type Block = n: nat | n < 0x8000_0000_0000_0000

  function FinalityLine(head: nat, confirmations: nat): nat {
    if head < confirmations then 0 else head - confirmations
  }

  /** The first block of the reorg window. */
  function WindowStart(head: nat, depth: nat): nat {
    if head + 1 > depth then head - depth + 1 else 1
  }

  /** The first block of a tick's scan: the block after the cursor, or the head on a first run, pulled back to cover
      the reorg window. */
  function ScanStart(lastBlock: nat, head: nat, depth: nat): nat {
    var from := if lastBlock == 0 then head else lastBlock + 1;
    if depth > 0 then Min(from, WindowStart(head, depth)) else from
  }

  /** That many blocks are on top of this one. */
  predicate Buried(block: nat, head: nat, confirmations: nat) {
    block + confirmations <= head
  }

  /** By counted confirmations a block is final if and only if that many blocks follow it. */
  lemma FinalIffBuried(block: nat, head: nat, confirmations: nat)
    requires block > 0
    ensures block <= FinalityLine(head, confirmations) <==> Buried(block, head, confirmations)
  {
  }

  /** A scan reads a block if and only if it is new (on a first run: the head) or inside the reorg window, the last
      `depth` blocks. */
  lemma ScanReadsIff(lastBlock: nat, head: nat, depth: nat, block: nat)
    requires 1 <= block <= head
    ensures ScanStart(lastBlock, head, depth) <= block
            <==> (if lastBlock == 0 then block == head else block > lastBlock) || head - block < depth
  {
  }

  /** `to := from + span - 1`, in 64-bit unsigned arithmetic, then clamped to the head. */
  function ChunkEnd(from: nat, span: nat, head: nat): nat
    requires span > 0
  {
    var to := (from + span - 1) % UINT64;
    if to > head then head else to
  }

  /** The guard of GetLogs (pkg/evm/client.go). */
  predicate RangeAccepted(from: nat, to: nat, span: nat) {
    from <= to && to - from + 1 <= span
  }

  /** GetLogs accepts the chunk a scan asks for exactly when computing its end does not wrap around; the chunk then
      begins at `from`, is no wider than the limit and ends no later than the head. */
  lemma ChunkAcceptedIff(from: nat, span: nat, head: Block)
    requires 0 < span < UINT64 && from <= head
    ensures RangeAccepted(from, ChunkEnd(from, span, head), span) <==> from + span - 1 < UINT64
    ensures from + span - 1 < UINT64 ==> ChunkEnd(from, span, head) == Min(head, from + span - 1)
  {
  }

  // ------------------------------------------------------------------ catching up

  /** The last block scanned by up to `chunks` successful chunks from `from`. */
  function WalkTo(from: nat, span: nat, head: nat, chunks: nat): int
    requires span > 0
    decreases chunks
  {
    if chunks == 0 || from > head then from - 1
    else WalkTo(ChunkEnd(from, span, head) + 1, span, head, chunks - 1)
  }

  /** The cursor after a tick in which every chunk succeeds; saving never moves it back. */
  function TickCursor(lastBlock: nat, head: nat, depth: nat, span: nat): nat
    requires span > 0
  {
    var start := ScanStart(lastBlock, head, depth);
    if start > head then lastBlock else Max(lastBlock, WalkTo(start, span, head, MAX_CHUNKS_PER_TICK))
  }

  function TicksCursor(lastBlock: nat, head: nat, depth: nat, span: nat, ticks: nat): nat
    requires span > 0
  {
    if ticks == 0 then lastBlock
    else TickCursor(TicksCursor(lastBlock, head, depth, span, ticks - 1), head, depth, span)
  }

  /** Chunks are contiguous: k of them cover k spans, clamped to the head. */
  lemma {:induction false} WalkCovers(from: nat, span: nat, head: Block, chunks: nat)
    requires span > 0 && from <= head + 1 && head + span < UINT64
    ensures WalkTo(from, span, head, chunks) == Min(head, from - 1 + chunks * span)
    decreases chunks
  {
    if chunks == 0 {
    } else if from > head {
      assert chunks * span >= 0;
    } else {
      ChunkAcceptedIff(from, span, head);
      var to := ChunkEnd(from, span, head);
      WalkCovers(to + 1, span, head, chunks - 1);
      assert (chunks - 1) * span + span == chunks * span;
    }
  }

  lemma WalkStep(from: nat, span: nat, head: nat, chunks: nat)
    requires span > 0
    ensures WalkTo(from, span, head, chunks) ==
              if chunks == 0 || from > head then from - 1
              else WalkTo(ChunkEnd(from, span, head) + 1, span, head, chunks - 1)
  {
  }

  lemma TickReach(lastBlock: nat, head: Block, depth: nat, span: nat)
    requires span > 0 && head + span < UINT64 && lastBlock < head
    ensures TickCursor(lastBlock, head, depth, span)
            == Max(lastBlock, Min(head, ScanStart(lastBlock, head, depth) - 1 + 10 * span))
  {
    WalkCovers(ScanStart(lastBlock, head, depth), span, head, MAX_CHUNKS_PER_TICK);
  }

  lemma StuckOneTick(lastBlock: nat, head: Block, depth: nat, span: nat)
    requires span > 0 && head + span < UINT64 && lastBlock < head && 10 * span < Min(depth, head)
    ensures TickCursor(lastBlock, head, depth, span) < head
  {
    TickReach(lastBlock, head, depth, span);
    assert ScanStart(lastBlock, head, depth) <= WindowStart(head, depth);
    hide TickCursor;
  }

  lemma {:induction false} StuckBelowHead(lastBlock: nat, head: Block, depth: nat, span: nat, ticks: nat)
    requires span > 0 && head + span < UINT64 && lastBlock < head && 10 * span < Min(depth, head)
    ensures TicksCursor(lastBlock, head, depth, span, ticks) < head
  {
    hide TickCursor;
    if ticks > 0 {
      StuckBelowHead(lastBlock, head, depth, span, ticks - 1);
      StuckOneTick(TicksCursor(lastBlock, head, depth, span, ticks - 1), head, depth, span);
    }
  }

  lemma {:induction false} OneMoreTickFirst(lastBlock: nat, head: nat, depth: nat, span: nat, ticks: nat)
    requires span > 0
    ensures TicksCursor(lastBlock, head, depth, span, ticks + 1)
            == TicksCursor(TickCursor(lastBlock, head, depth, span), head, depth, span, ticks)
  {
    if ticks > 0 {
      OneMoreTickFirst(lastBlock, head, depth, span, ticks - 1);
    }
  }

  lemma {:induction false} ReachesHead(lastBlock: nat, head: Block, depth: nat, span: nat) returns (ticks: nat)
    requires span > 0 && head + span < UINT64 && 10 * span >= Min(depth, head)
    ensures TicksCursor(lastBlock, head, depth, span, ticks) >= head
    decreases head - lastBlock
  {
    if lastBlock >= head {
      return 0;
    }
    TickReach(lastBlock, head, depth, span);
    ticks := ReachesHead(TickCursor(lastBlock, head, depth, span), head, depth, span);
    OneMoreTickFirst(lastBlock, head, depth, span, ticks);
    ticks := ticks + 1;
  }

  /** Catching up with a head that stands still, every chunk succeeding: the cursor reaches the head in finitely many
      ticks if and only if it is there already or one tick's chunks span the reorg window (as far as the chain is that
      long). */
  lemma CatchUpIff(lastBlock: nat, head: Block, depth: nat, span: nat)
    requires span > 0 && head + span < UINT64
    ensures (exists ticks :: TicksCursor(lastBlock, head, depth, span, ticks) >= head)
            <==> lastBlock >= head || 10 * span >= Min(depth, head)
  {
    if lastBlock >= head {
      assert TicksCursor(lastBlock, head, depth, span, 0) >= head;
    } else if 10 * span >= Min(depth, head) {
      var ticks := ReachesHead(lastBlock, head, depth, span);
    } else {
      forall ticks: nat ensures TicksCursor(lastBlock, head, depth, span, ticks) < head {
        StuckBelowHead(lastBlock, head, depth, span, ticks);
      }
    }
  }

  /** The cursor after the start-up rewind. */
  function Rewound(lastBlock: nat, depth: nat): nat {
    Max(0, lastBlock - depth)
  }

  /** A restart leaves no block between the old cursor and the new scan unread if and only if the rewind keeps the
      cursor off zero (which reads as "first run"), or the reorg window reaches back to the old cursor anyway. */
  lemma RewindLeavesNoGapIff(lastBlock: nat, head: nat, depth: nat)
    requires 0 < lastBlock <= head
    ensures ScanStart(Rewound(lastBlock, depth), head, depth) <= lastBlock + 1
            <==> Rewound(lastBlock, depth) > 0 || head <= lastBlock + depth
  {
  }
}
