/** The epoch planner of tools.py (`get_parallelization_epochs`): it splits
    the work indices [0, max_id) into epochs that run one after another, each
    epoch into execution blocks that run in parallel, and reports the plan as
    a trace, either block by block or, for grouped work, as running counts of
    the underlying items. */
module EpochPlanner {
  import opened RangePartition
  import opened GroupedWork

  datatype Option<T> = None | Some(value: T)

  /** One epoch dict of the source: `start_epoch`, `end_epoch` and its
      parallel `epoch_ranges`. */
  datatype Epoch = Epoch(startEpoch: int, endEpoch: int, epochRanges: seq<Range>)

  /** One line of the logged plan. */
  datatype TraceLine = EpochStart(at: int) | EpochEnd(at: int) | ParallelBlock(block: Range)

  /** How blocks are reported: `is_list_of_list = False`, or `True` with its `id_pairs`. */
  datatype Mode<T> = ByIndex | Grouped(idPairs: seq<seq<T>>)

  /** What a call returns: `None` for a negative count, the
      `ZeroDivisionError` that a zero count lets escape from `get_ranges`,
      or the epochs together with the trace the call logs. */
  datatype Outcome = Rejected | ZeroDivision | Planned(epochs: seq<Epoch>, trace: seq<TraceLine>)

  /** The epoch built from one top-level range. */
  function MakeEpoch(span: Range, nExecutionBlocks: int): Epoch
    requires Partitionable(Len(span), nExecutionBlocks)
  {
    Epoch(span.start, span.end, Ranges(Len(span), span.start, nExecutionBlocks))
  }

  /** The epochs built from the top-level ranges in order, or `None` when
      one of them is not `Partitionable` by the block count. For the
      non-negative counts that pass the planner's guard, that is exactly
      the division by zero inside `get_ranges`. */
  function BuildEpochs(spans: seq<Range>, nExecutionBlocks: int): Option<seq<Epoch>>
  {
    if spans == [] then Some([])
    else if !Partitionable(Len(spans[0]), nExecutionBlocks) then None
    else match BuildEpochs(spans[1..], nExecutionBlocks)
      case None => None
      case Some(rest) => Some([MakeEpoch(spans[0], nExecutionBlocks)] + rest)
  }

  function Prefixed(es: seq<Epoch>, built: Option<seq<Epoch>>): Option<seq<Epoch>>
  {
    match built
    case None => None
    case Some(rest) => Some(es + rest)
  }

  /** The `[start_epoch, end_epoch]` of each epoch. */
  function EpochSpans(es: seq<Epoch>): seq<Range>
  {
    if es == [] then [] else [Range(es[0].startEpoch, es[0].endEpoch)] + EpochSpans(es[1..])
  }

  /** The blocks of all epochs, in execution order. */
  function AllBlocks(es: seq<Epoch>): seq<Range>
  {
    if es == [] then [] else es[0].epochRanges + AllBlocks(es[1..])
  }

  /** The `start_block` of a grouped block, given the last `end_block`. */
  function StartOf(endBlock: Option<int>): int
  {
    if endBlock.None? then 0 else endBlock.value
  }

  /** The trace line of one block and the new `end_block`. Outside grouped
      mode the block is logged as itself and `end_block` is untouched. In
      grouped mode the line runs from the last `end_block` over the items of
      the block's groups and becomes the new `end_block`; when the last
      `end_block` counted the items before the block, the line is the
      block's item counts `ReportedAs` it, whatever came before. */
  function BlockLine<T>(block: Range, mode: Mode<T>, endBlock: Option<int>): (step: (TraceLine, Option<int>))
    ensures step.0.ParallelBlock?
    ensures mode.ByIndex? ==> step == (ParallelBlock(block), endBlock)
    ensures mode.Grouped? ==>
              step.0.block.start == StartOf(endBlock) && step.1 == Some(step.0.block.end) &&
              step.0.block.end - step.0.block.start == GroupedLength(mode.idPairs, block.start, block.end)
    ensures mode.Grouped? && 0 <= block.start <= block.end && StartOf(endBlock) == ItemsBefore(mode.idPairs, block.start)
            ==> step.0.block == ReportedAs(mode, block)
  {
    match mode
    case ByIndex => (ParallelBlock(block), endBlock)
    case Grouped(idPairs) =>
      var startBlock := StartOf(endBlock);
      var newEnd := startBlock + GroupedLength(idPairs, block.start, block.end);
      if 0 <= block.start <= block.end then
        GroupedLengthIsDifference(idPairs, block.start, block.end);
        (ParallelBlock(Range(startBlock, newEnd)), Some(newEnd))
      else
        (ParallelBlock(Range(startBlock, newEnd)), Some(newEnd))
  }

  /** The trace lines of a run of blocks, threading `end_block` through them. */
  function BlockLines<T>(blocks: seq<Range>, mode: Mode<T>, endBlock: Option<int>): (seq<TraceLine>, Option<int>)
    decreases |blocks|
  {
    if blocks == [] then ([], endBlock)
    else
      var first := BlockLine(blocks[0], mode, endBlock);
      var rest := BlockLines(blocks[1..], mode, first.1);
      ([first.0] + rest.0, rest.1)
  }

  /** The trace of a run of epochs: start, end, then the blocks of each,
      with `end_block` carried from one epoch to the next. */
  function EpochLines<T>(es: seq<Epoch>, mode: Mode<T>, endBlock: Option<int>): seq<TraceLine>
    decreases |es|
  {
    if es == [] then []
    else
      var blocks := BlockLines(es[0].epochRanges, mode, endBlock);
      [EpochStart(es[0].startEpoch), EpochEnd(es[0].endEpoch)] + blocks.0 + EpochLines(es[1..], mode, blocks.1)
  }

  /** What `get_parallelization_epochs(logger, max_id, N_epochs,
      N_execution_blocks, is_list_of_list, id_pairs)` does. */
  function Planner<T>(maxId: int, nEpochs: int, nExecutionBlocks: int, mode: Mode<T>): Outcome
  {
    if nEpochs < 0 || nExecutionBlocks < 0 then Rejected
    else if !Partitionable(maxId, nEpochs) then ZeroDivision
    else match BuildEpochs(Ranges(maxId, 0, nEpochs), nExecutionBlocks)
      case None => ZeroDivision
      case Some(es) => Planned(es, EpochLines(es, mode, None))
  }

  // ---------------------------------------------------------------------
  // A stateless reading of the trace.

  /** How a block is reported, independently of every other block: as its
      index range, or as the item counts of the groups before its bounds. */
  function ReportedAs<T>(mode: Mode<T>, block: Range): Range
  {
    match mode
    case ByIndex => block
    case Grouped(idPairs) => Range(ItemsBefore(idPairs, block.start), ItemsBefore(idPairs, block.end))
  }

  function BlockReports<T>(blocks: seq<Range>, mode: Mode<T>): seq<TraceLine>
  {
    seq(|blocks|, i requires 0 <= i < |blocks| => ParallelBlock(ReportedAs(mode, blocks[i])))
  }

  /** The trace as the plan describes it: each epoch's bounds, then each of its blocks reported. */
  function PlainTrace<T>(es: seq<Epoch>, mode: Mode<T>): seq<TraceLine>
  {
    if es == [] then []
    else [EpochStart(es[0].startEpoch), EpochEnd(es[0].endEpoch)] + BlockReports(es[0].epochRanges, mode)
         + PlainTrace(es[1..], mode)
  }

  // ---------------------------------------------------------------------
  // The source's loops.

  /** `get_parallelization_epochs` as the source writes it: the guard, the
      loop building epoch dicts, then the nested loop logging the plan. */
  method GetParallelizationEpochs<T>(maxId: int, nEpochs: int, nExecutionBlocks: int, mode: Mode<T>)
    returns (outcome: Outcome)
    ensures outcome == Planner(maxId, nEpochs, nExecutionBlocks, mode)
  {
    if nEpochs < 0 || nExecutionBlocks < 0 {
      return Rejected;
    }
    if !Partitionable(maxId, nEpochs) {
      // get_ranges divides by zero
      return ZeroDivision;
    }
    var epochRanges := GetRanges(maxId, 0, nEpochs);
    var built := CollectEpochs(epochRanges, nExecutionBlocks);
    if built.None? {
      return ZeroDivision;
    }
    var trace := TracePlan(built.value, mode);
    outcome := Planned(built.value, trace);
  }

  /** The loop over `epoch_ranges` that appends one epoch dict per range;
      `None` at the first range that is not `Partitionable` by the block
      count (a division by zero in `get_ranges` once the guard has passed). */
  method CollectEpochs(epochRanges: seq<Range>, nExecutionBlocks: int) returns (built: Option<seq<Epoch>>)
    ensures built == BuildEpochs(epochRanges, nExecutionBlocks)
  {
    var epochs: seq<Epoch> := [];
    var k := 0;
    assert epochRanges[k..] == epochRanges;
    match BuildEpochs(epochRanges, nExecutionBlocks) {
      case None =>
      case Some(rest) => assert epochs + rest == rest;
    }
    while k < |epochRanges|
      invariant 0 <= k <= |epochRanges|
      invariant BuildEpochs(epochRanges, nExecutionBlocks)
             == Prefixed(epochs, BuildEpochs(epochRanges[k..], nExecutionBlocks))
    {
      var epochRange := epochRanges[k];
      var epochSize := epochRange.end - epochRange.start;
      BuildEpochsStep(epochRanges, k, nExecutionBlocks, epochs);
      if !Partitionable(epochSize, nExecutionBlocks) {
        // with the guard passed, get_ranges divides by zero here
        return None;
      }
      var executionRanges := GetRanges(epochSize, epochRange.start, nExecutionBlocks);
      epochs := epochs + [Epoch(epochRange.start, epochRange.end, executionRanges)];
      k := k + 1;
    }
    assert epochRanges[k..] == [];
    assert epochs + [] == epochs;
    built := Some(epochs);
  }

  /** The outer logging loop: each epoch's start and end, then its blocks. */
  method TracePlan<T>(epochs: seq<Epoch>, mode: Mode<T>) returns (trace: seq<TraceLine>)
    ensures trace == EpochLines(epochs, mode, None)
  {
    trace := [];
    // `start_block` and `end_block` are None together; the model keeps `end_block`.
    var endBlock: Option<int> := None;
    var e := 0;
    assert epochs[e..] == epochs && trace + EpochLines(epochs, mode, None) == EpochLines(epochs, mode, None);
    while e < |epochs|
      invariant 0 <= e <= |epochs|
      invariant trace + EpochLines(epochs[e..], mode, endBlock) == EpochLines(epochs, mode, None)
    {
      var epoch := epochs[e];
      EpochLinesStep(epochs, e, mode, endBlock, trace);
      var lines, newEndBlock := TraceBlocks(epoch.epochRanges, mode, endBlock);
      trace := trace + [EpochStart(epoch.startEpoch), EpochEnd(epoch.endEpoch)] + lines;
      endBlock := newEndBlock;
      e := e + 1;
    }
    assert epochs[e..] == [] && trace + [] == trace;
  }

  /** Loop-invariant step of `TracePlan`: unfolds `EpochLines` once at epoch `e`. */
  lemma {:induction false} EpochLinesStep<T>(es: seq<Epoch>, e: int, mode: Mode<T>, endBlock: Option<int>, trace: seq<TraceLine>)
    requires 0 <= e < |es|
    ensures var blocks := BlockLines(es[e].epochRanges, mode, endBlock);
            trace + EpochLines(es[e..], mode, endBlock)
            == (trace + [EpochStart(es[e].startEpoch), EpochEnd(es[e].endEpoch)] + blocks.0)
               + EpochLines(es[e + 1..], mode, blocks.1)
  {
    assert es[e..][0] == es[e] && es[e..][1..] == es[e + 1..];
  }

  /** The inner logging loop over one epoch's blocks, carrying `end_block`. */
  method TraceBlocks<T>(blocks: seq<Range>, mode: Mode<T>, endBlock0: Option<int>)
    returns (lines: seq<TraceLine>, endBlock: Option<int>)
    ensures (lines, endBlock) == BlockLines(blocks, mode, endBlock0)
  {
    lines := [];
    endBlock := endBlock0;
    var b := 0;
    assert blocks[b..] == blocks && lines + BlockLines(blocks, mode, endBlock0).0 == BlockLines(blocks, mode, endBlock0).0;
    while b < |blocks|
      invariant 0 <= b <= |blocks|
      invariant BlockLines(blocks, mode, endBlock0) == Continued(lines, BlockLines(blocks[b..], mode, endBlock))
    {
      var block := blocks[b];
      BlockLinesStep(blocks, b, mode, endBlock, lines);
      match mode {
        case ByIndex =>
          lines := lines + [ParallelBlock(block)];
        case Grouped(idPairs) =>
          var startBlock := if endBlock.None? then 0 else endBlock.value;
          var newEnd := startBlock + GroupedLength(idPairs, block.start, block.end);
          endBlock := Some(newEnd);
          lines := lines + [ParallelBlock(Range(startBlock, newEnd))];
      }
      b := b + 1;
    }
    BlockLinesDone(blocks, mode, endBlock, lines);
  }

  /** Lines already logged, followed by the lines and final `end_block` of the rest. */
  function Continued(done: seq<TraceLine>, rest: (seq<TraceLine>, Option<int>)): (seq<TraceLine>, Option<int>)
  {
    (done + rest.0, rest.1)
  }

  /** Loop-invariant exit of `TraceBlocks`: no blocks are left, so nothing is added. */
  lemma {:induction false} BlockLinesDone<T>(blocks: seq<Range>, mode: Mode<T>, endBlock: Option<int>, lines: seq<TraceLine>)
    ensures Continued(lines, BlockLines(blocks[|blocks|..], mode, endBlock)) == (lines, endBlock)
  {
    assert blocks[|blocks|..] == [];
    assert lines + [] == lines;
  }

  /** Loop-invariant step of `CollectEpochs`: unfolds `BuildEpochs` once at range `k`. */
  lemma {:induction false} BuildEpochsStep(spans: seq<Range>, k: int, nExecutionBlocks: int, es: seq<Epoch>)
    requires 0 <= k < |spans|
    ensures !Partitionable(Len(spans[k]), nExecutionBlocks) ==> BuildEpochs(spans[k..], nExecutionBlocks) == None
    ensures Partitionable(Len(spans[k]), nExecutionBlocks) ==>
              Prefixed(es, BuildEpochs(spans[k..], nExecutionBlocks))
              == Prefixed(es + [MakeEpoch(spans[k], nExecutionBlocks)], BuildEpochs(spans[k + 1..], nExecutionBlocks))
  {
    assert spans[k..][0] == spans[k] && spans[k..][1..] == spans[k + 1..];
    if Partitionable(Len(spans[k]), nExecutionBlocks) {
      match BuildEpochs(spans[k + 1..], nExecutionBlocks) {
        case None =>
        case Some(rest) =>
          assert es + ([MakeEpoch(spans[k], nExecutionBlocks)] + rest)
              == (es + [MakeEpoch(spans[k], nExecutionBlocks)]) + rest;
      }
    }
  }

  /** Loop-invariant step of `TraceBlocks`: unfolds `BlockLines` once at block `b`. */
  lemma {:induction false} BlockLinesStep<T>(blocks: seq<Range>, b: int, mode: Mode<T>, endBlock: Option<int>, lines: seq<TraceLine>)
    requires 0 <= b < |blocks|
    ensures var step := BlockLine(blocks[b], mode, endBlock);
            Continued(lines, BlockLines(blocks[b..], mode, endBlock))
            == Continued(lines + [step.0], BlockLines(blocks[b + 1..], mode, step.1))
  {
    assert blocks[b..][0] == blocks[b] && blocks[b..][1..] == blocks[b + 1..];
    var step := BlockLine(blocks[b], mode, endBlock);
    assert lines + ([step.0] + BlockLines(blocks[b + 1..], mode, step.1).0)
        == (lines + [step.0]) + BlockLines(blocks[b + 1..], mode, step.1).0;
  }

  // ---------------------------------------------------------------------
  // Properties of the plan.

  lemma {:induction false} BuildEpochsSome(spans: seq<Range>, nExecutionBlocks: int, es: seq<Epoch>)
    requires BuildEpochs(spans, nExecutionBlocks) == Some(es)
    ensures EpochSpans(es) == spans && |es| == |spans|
    ensures forall i :: 0 <= i < |es| ==>
              Partitionable(Len(spans[i]), nExecutionBlocks) &&
              es[i].epochRanges == Ranges(Len(spans[i]), spans[i].start, nExecutionBlocks)
    decreases |spans|
  {
    if spans != [] {
      var rest := BuildEpochs(spans[1..], nExecutionBlocks).value;
      BuildEpochsSome(spans[1..], nExecutionBlocks, rest);
      assert es == [MakeEpoch(spans[0], nExecutionBlocks)] + rest;
      assert es[1..] == rest;
    }
  }

  /** Building fails exactly when some range is not `Partitionable`. */
  lemma {:induction false} BuildEpochsNone(spans: seq<Range>, nExecutionBlocks: int)
    ensures BuildEpochs(spans, nExecutionBlocks).None? <==>
              exists i :: 0 <= i < |spans| && !Partitionable(Len(spans[i]), nExecutionBlocks)
    decreases |spans|
  {
    if spans != [] {
      BuildEpochsNone(spans[1..], nExecutionBlocks);
      if exists i :: 0 <= i < |spans| && !Partitionable(Len(spans[i]), nExecutionBlocks) {
        var i :| 0 <= i < |spans| && !Partitionable(Len(spans[i]), nExecutionBlocks);
        if i > 0 {
          assert spans[1..][i - 1] == spans[i];
        }
      }
      if exists i :: 0 <= i < |spans[1..]| && !Partitionable(Len(spans[1..][i]), nExecutionBlocks) {
        var i :| 0 <= i < |spans[1..]| && !Partitionable(Len(spans[1..][i]), nExecutionBlocks);
        assert spans[i + 1] == spans[1..][i];
      }
    }
  }

  /** The call returns `None` exactly when a count is negative. */
  lemma {:induction false} PlannerRejected<T>(maxId: int, nEpochs: int, nExecutionBlocks: int, mode: Mode<T>)
    ensures Planner(maxId, nEpochs, nExecutionBlocks, mode).Rejected? <==> nEpochs < 0 || nExecutionBlocks < 0
  {
  }

  /** A count of zero passes the guard and then divides by zero inside
      `get_ranges`: always for zero epochs (unless `max_id` is negative),
      and for zero execution blocks as soon as there is an epoch. */
  lemma {:induction false} PlannerZeroDivision<T>(maxId: int, nEpochs: int, nExecutionBlocks: int, mode: Mode<T>)
    ensures Planner(maxId, nEpochs, nExecutionBlocks, mode).ZeroDivision? <==>
              nEpochs >= 0 && nExecutionBlocks >= 0 &&
              ((nEpochs == 0 && maxId >= 0) || (nExecutionBlocks == 0 && maxId > 0))
  {
    if nEpochs >= 0 && nExecutionBlocks >= 0 && Partitionable(maxId, nEpochs) {
      var spans := Ranges(maxId, 0, nEpochs);
      RangesCount(maxId, 0, nEpochs);
      BuildEpochsNone(spans, nExecutionBlocks);
      if maxId >= 0 {
        RangesTile(maxId, 0, nEpochs);
        if nExecutionBlocks == 0 && maxId > 0 {
          assert !Partitionable(Len(spans[0]), nExecutionBlocks);
        }
      }
    }
  }

  /** The epochs are `get_ranges(max_id, 0, N_epochs)` in order, and the
      blocks of each are `get_ranges` of that epoch offset to its start. */
  lemma {:induction false} PlannerEpochs<T>(maxId: int, nEpochs: int, nExecutionBlocks: int, mode: Mode<T>)
    requires Planner(maxId, nEpochs, nExecutionBlocks, mode).Planned?
    ensures var es := Planner(maxId, nEpochs, nExecutionBlocks, mode).epochs;
            nEpochs >= 0 && nExecutionBlocks >= 0 &&
            Partitionable(maxId, nEpochs) &&
            EpochSpans(es) == Ranges(maxId, 0, nEpochs) &&
            forall i :: 0 <= i < |es| ==>
              Partitionable(es[i].endEpoch - es[i].startEpoch, nExecutionBlocks) &&
              es[i].epochRanges == Ranges(es[i].endEpoch - es[i].startEpoch, es[i].startEpoch, nExecutionBlocks)
  {
    var es := Planner(maxId, nEpochs, nExecutionBlocks, mode).epochs;
    var spans := Ranges(maxId, 0, nEpochs);
    BuildEpochsSome(spans, nExecutionBlocks, es);
    EpochSpansAt(es);
  }

  lemma {:induction false} EpochSpansAt(es: seq<Epoch>)
    ensures |EpochSpans(es)| == |es|
    ensures forall i :: 0 <= i < |es| ==> EpochSpans(es)[i] == Range(es[i].startEpoch, es[i].endEpoch)
    decreases |es|
  {
    if es != [] {
      EpochSpansAt(es[1..]);
      forall i | 0 < i < |es| ensures EpochSpans(es)[i] == Range(es[i].startEpoch, es[i].endEpoch) {
        assert es[1..][i - 1] == es[i];
      }
    }
  }

  /** Epochs that tile [lo, hi), each tiled by its own blocks, put their
      blocks end to end into a tiling of [lo, hi). */
  lemma {:induction false} AllBlocksTile(es: seq<Epoch>, lo: int, hi: int)
    requires Tiles(EpochSpans(es), lo, hi)
    requires forall i :: 0 <= i < |es| ==> Tiles(es[i].epochRanges, es[i].startEpoch, es[i].endEpoch)
    ensures Tiles(AllBlocks(es), lo, hi)
    decreases |es|
  {
    if es != [] {
      var spans := EpochSpans(es);
      assert spans[1..] == EpochSpans(es[1..]);
      TilesTail(spans, lo, hi);
      forall i | 0 <= i < |es[1..]|
        ensures Tiles(es[1..][i].epochRanges, es[1..][i].startEpoch, es[1..][i].endEpoch)
      {
        assert es[1..][i] == es[i + 1];
      }
      AllBlocksTile(es[1..], es[0].endEpoch, hi);
      TilesAppend(es[0].epochRanges, AllBlocks(es[1..]), lo, es[0].endEpoch, hi);
    }
  }

  /** Epochs built from `get_ranges` at both levels tile [0, max_id), each
      tiled by its own blocks. */
  lemma {:induction false} EpochsTile(es: seq<Epoch>, maxId: int, nEpochs: int, nExecutionBlocks: int)
    requires maxId >= 0 && Partitionable(maxId, nEpochs)
    requires EpochSpans(es) == Ranges(maxId, 0, nEpochs)
    requires forall i :: 0 <= i < |es| ==>
               Partitionable(es[i].endEpoch - es[i].startEpoch, nExecutionBlocks) &&
               es[i].epochRanges == Ranges(es[i].endEpoch - es[i].startEpoch, es[i].startEpoch, nExecutionBlocks)
    ensures Tiles(EpochSpans(es), 0, maxId)
    ensures forall i :: 0 <= i < |es| ==> es[i].startEpoch < es[i].endEpoch
    ensures forall i :: 0 <= i < |es| ==> Tiles(es[i].epochRanges, es[i].startEpoch, es[i].endEpoch)
  {
    RangesTile(maxId, 0, nEpochs);
    EpochSpansAt(es);
    forall i | 0 <= i < |es| ensures es[i].startEpoch < es[i].endEpoch {
      assert EpochSpans(es)[i] == Range(es[i].startEpoch, es[i].endEpoch);
    }
    forall i | 0 <= i < |es| ensures Tiles(es[i].epochRanges, es[i].startEpoch, es[i].endEpoch) {
      RangesTile(es[i].endEpoch - es[i].startEpoch, es[i].startEpoch, nExecutionBlocks);
    }
  }

  /** Every epoch is tiled by its blocks (so every block lies inside its
      epoch), and all blocks of all epochs in order tile [0, max_id). */
  lemma {:induction false} PlannerCoverage<T>(maxId: int, nEpochs: int, nExecutionBlocks: int, mode: Mode<T>)
    requires Planner(maxId, nEpochs, nExecutionBlocks, mode).Planned?
    requires maxId >= 0
    ensures var es := Planner(maxId, nEpochs, nExecutionBlocks, mode).epochs;
            Tiles(EpochSpans(es), 0, maxId) &&
            (forall i :: 0 <= i < |es| ==> Tiles(es[i].epochRanges, es[i].startEpoch, es[i].endEpoch)) &&
            (forall i, j :: 0 <= i < |es| && 0 <= j < |es[i].epochRanges| ==>
               es[i].startEpoch <= es[i].epochRanges[j].start && es[i].epochRanges[j].end <= es[i].endEpoch) &&
            Tiles(AllBlocks(es), 0, maxId)
  {
    var es := Planner(maxId, nEpochs, nExecutionBlocks, mode).epochs;
    PlannerEpochs(maxId, nEpochs, nExecutionBlocks, mode);
    EpochsCoverage(es, maxId, nEpochs, nExecutionBlocks);
  }

  /** No gaps and no overlaps: every index of [0, max_id) is run by exactly
      one block of the plan, and no other index is run by any block. */
  lemma {:induction false} PlannerExactlyOneBlock<T>(maxId: int, nEpochs: int, nExecutionBlocks: int, mode: Mode<T>, x: int)
    requires Planner(maxId, nEpochs, nExecutionBlocks, mode).Planned?
    ensures var bs := AllBlocks(Planner(maxId, nEpochs, nExecutionBlocks, mode).epochs);
            (0 <= x < maxId <==> exists i :: 0 <= i < |bs| && bs[i].start <= x < bs[i].end) &&
            forall i, j ::
              (0 <= i < |bs| && 0 <= j < |bs| && bs[i].start <= x < bs[i].end && bs[j].start <= x < bs[j].end)
              ==> i == j
  {
    var es := Planner(maxId, nEpochs, nExecutionBlocks, mode).epochs;
    if maxId >= 0 {
      PlannerCoverage(maxId, nEpochs, nExecutionBlocks, mode);
      assert Tiles(AllBlocks(es), 0, maxId);
      TilesCover(AllBlocks(es), 0, maxId, x);
      TilesDisjoint(AllBlocks(es), 0, maxId, x);
    } else {
      PlannerEpochs(maxId, nEpochs, nExecutionBlocks, mode);
      RangesCount(maxId, 0, nEpochs);
      EpochSpansAt(es);
      assert es == [];
    }
  }

  lemma {:induction false} EpochsCoverage(es: seq<Epoch>, maxId: int, nEpochs: int, nExecutionBlocks: int)
    requires maxId >= 0 && Partitionable(maxId, nEpochs)
    requires EpochSpans(es) == Ranges(maxId, 0, nEpochs)
    requires forall i :: 0 <= i < |es| ==>
               Partitionable(es[i].endEpoch - es[i].startEpoch, nExecutionBlocks) &&
               es[i].epochRanges == Ranges(es[i].endEpoch - es[i].startEpoch, es[i].startEpoch, nExecutionBlocks)
    ensures Tiles(EpochSpans(es), 0, maxId)
    ensures forall i :: 0 <= i < |es| ==> Tiles(es[i].epochRanges, es[i].startEpoch, es[i].endEpoch)
    ensures forall i, j :: 0 <= i < |es| && 0 <= j < |es[i].epochRanges| ==>
              es[i].startEpoch <= es[i].epochRanges[j].start && es[i].epochRanges[j].end <= es[i].endEpoch
    ensures Tiles(AllBlocks(es), 0, maxId)
  {
    EpochsTile(es, maxId, nEpochs, nExecutionBlocks);
    forall i | 0 <= i < |es|
      ensures forall j :: 0 <= j < |es[i].epochRanges| ==>
                es[i].startEpoch <= es[i].epochRanges[j].start && es[i].epochRanges[j].end <= es[i].endEpoch
    {
      TilesWithin(es[i].epochRanges, es[i].startEpoch, es[i].endEpoch);
    }
    AllBlocksTile(es, 0, maxId);
  }

  /** The reporting mode changes only the trace: whether the call returns
      `None`, fails, or plans, and which epochs it plans, do not depend on it. */
  lemma {:induction false} PlannerModeIndependent<T>(maxId: int, nEpochs: int, nExecutionBlocks: int, m1: Mode<T>, m2: Mode<T>)
    ensures Planner(maxId, nEpochs, nExecutionBlocks, m1).Rejected? == Planner(maxId, nEpochs, nExecutionBlocks, m2).Rejected?
    ensures Planner(maxId, nEpochs, nExecutionBlocks, m1).ZeroDivision? == Planner(maxId, nEpochs, nExecutionBlocks, m2).ZeroDivision?
    ensures Planner(maxId, nEpochs, nExecutionBlocks, m1).Planned? ==>
              Planner(maxId, nEpochs, nExecutionBlocks, m1).epochs == Planner(maxId, nEpochs, nExecutionBlocks, m2).epochs
  {
  }

  /** There are `min(N_epochs, max_id)` epochs and `min(N_execution_blocks,
      size)` blocks in an epoch of `size` indices. */
  lemma {:induction false} PlannerCounts<T>(maxId: int, nEpochs: int, nExecutionBlocks: int, mode: Mode<T>)
    requires Planner(maxId, nEpochs, nExecutionBlocks, mode).Planned?
    ensures var es := Planner(maxId, nEpochs, nExecutionBlocks, mode).epochs;
            |es| == (if maxId <= 0 then 0 else Min(nEpochs, maxId)) &&
            forall i :: 0 <= i < |es| ==>
              |es[i].epochRanges| == Min(nExecutionBlocks, es[i].endEpoch - es[i].startEpoch)
  {
    var es := Planner(maxId, nEpochs, nExecutionBlocks, mode).epochs;
    PlannerEpochs(maxId, nEpochs, nExecutionBlocks, mode);
    EpochCounts(es, maxId, nEpochs, nExecutionBlocks);
  }

  lemma {:induction false} EpochCounts(es: seq<Epoch>, maxId: int, nEpochs: int, nExecutionBlocks: int)
    requires Partitionable(maxId, nEpochs)
    requires EpochSpans(es) == Ranges(maxId, 0, nEpochs)
    requires forall i :: 0 <= i < |es| ==>
               Partitionable(es[i].endEpoch - es[i].startEpoch, nExecutionBlocks) &&
               es[i].epochRanges == Ranges(es[i].endEpoch - es[i].startEpoch, es[i].startEpoch, nExecutionBlocks)
    ensures |es| == (if maxId <= 0 then 0 else Min(nEpochs, maxId))
    ensures forall i :: 0 <= i < |es| ==>
              |es[i].epochRanges| == Min(nExecutionBlocks, es[i].endEpoch - es[i].startEpoch)
  {
    RangesCount(maxId, 0, nEpochs);
    EpochSpansAt(es);
    if maxId >= 0 {
      EpochsTile(es, maxId, nEpochs, nExecutionBlocks);
      forall i | 0 <= i < |es|
        ensures |es[i].epochRanges| == Min(nExecutionBlocks, es[i].endEpoch - es[i].startEpoch)
      {
        RangesCount(es[i].endEpoch - es[i].startEpoch, es[i].startEpoch, nExecutionBlocks);
      }
    }
  }

  // ---------------------------------------------------------------------
  // The trace.

  /** Unfolding step for the proofs below: the reports of a run of blocks are
      the first block's report followed by the reports of the rest. */
  lemma {:induction false} BlockReportsCons<T>(blocks: seq<Range>, mode: Mode<T>)
    requires blocks != []
    ensures BlockReports(blocks, mode) == [ParallelBlock(ReportedAs(mode, blocks[0]))] + BlockReports(blocks[1..], mode)
  {
  }

  lemma {:induction false} BlockLinesByIndex<T>(blocks: seq<Range>, endBlock: Option<int>)
    ensures BlockLines(blocks, Mode<T>.ByIndex, endBlock) == (BlockReports(blocks, Mode<T>.ByIndex), endBlock)
    decreases |blocks|
  {
    if blocks != [] {
      var mode: Mode<T> := ByIndex;
      assert BlockLine(blocks[0], mode, endBlock) == (ParallelBlock(blocks[0]), endBlock);
      BlockLinesByIndex<T>(blocks[1..], endBlock);
      var rest := BlockLines(blocks[1..], mode, endBlock);
      assert BlockLines(blocks, mode, endBlock) == ([ParallelBlock(blocks[0])] + rest.0, rest.1);
      BlockReportsCons(blocks, mode);
      assert ReportedAs(mode, blocks[0]) == blocks[0];
    } else {
      assert |BlockReports(blocks, Mode<T>.ByIndex)| == 0;
    }
  }

  /** Carrying `end_block` from block to block reports each grouped block
      `[a, b]` as the items held by the groups before `a` and before `b`,
      provided the blocks are contiguous and the carried count matches
      where they start. */
  lemma {:induction false} BlockLinesGrouped<T>(blocks: seq<Range>, idPairs: seq<seq<T>>, endBlock: Option<int>, lo: int, hi: int)
    requires Tiles(blocks, lo, hi) && 0 <= lo
    requires StartOf(endBlock) == ItemsBefore(idPairs, lo)
    ensures BlockLines(blocks, Grouped(idPairs), endBlock).0 == BlockReports(blocks, Grouped(idPairs))
    ensures StartOf(BlockLines(blocks, Grouped(idPairs), endBlock).1) == ItemsBefore(idPairs, hi)
    decreases |blocks|
  {
    if blocks != [] {
      var mode := Grouped(idPairs);
      var b := blocks[0];
      TilesTail(blocks, lo, hi);
      GroupedLengthIsDifference(idPairs, b.start, b.end);
      var first := BlockLine(b, mode, endBlock);
      assert first == (ParallelBlock(ReportedAs(mode, b)), Some(ItemsBefore(idPairs, b.end) as int));
      BlockLinesGrouped(blocks[1..], idPairs, first.1, b.end, hi);
      BlockReportsCons(blocks, mode);
    }
  }

  lemma {:induction false} EpochLinesByIndex<T>(es: seq<Epoch>, endBlock: Option<int>)
    ensures EpochLines(es, Mode<T>.ByIndex, endBlock) == PlainTrace(es, Mode<T>.ByIndex)
    decreases |es|
  {
    if es != [] {
      BlockLinesByIndex<T>(es[0].epochRanges, endBlock);
      EpochLinesByIndex<T>(es[1..], endBlock);
    }
  }

  lemma {:induction false} EpochLinesGrouped<T>(es: seq<Epoch>, idPairs: seq<seq<T>>, endBlock: Option<int>, lo: int, hi: int)
    requires Tiles(EpochSpans(es), lo, hi) && 0 <= lo
    requires forall i :: 0 <= i < |es| ==> Tiles(es[i].epochRanges, es[i].startEpoch, es[i].endEpoch)
    requires StartOf(endBlock) == ItemsBefore(idPairs, lo)
    ensures EpochLines(es, Grouped(idPairs), endBlock) == PlainTrace(es, Grouped(idPairs))
    decreases |es|
  {
    if es != [] {
      var spans := EpochSpans(es);
      assert spans[1..] == EpochSpans(es[1..]);
      TilesTail(spans, lo, hi);
      BlockLinesGrouped(es[0].epochRanges, idPairs, endBlock, lo, es[0].endEpoch);
      var carried := BlockLines(es[0].epochRanges, Grouped(idPairs), endBlock).1;
      forall i | 0 <= i < |es[1..]|
        ensures Tiles(es[1..][i].epochRanges, es[1..][i].startEpoch, es[1..][i].endEpoch)
      {
        assert es[1..][i] == es[i + 1];
      }
      EpochLinesGrouped(es[1..], idPairs, carried, es[0].endEpoch, hi);
    }
  }

  /** The logged trace lists every epoch's start and end followed by its
      blocks: by index range, or in grouped mode as `[items before a, items
      before b]` for a block `[a, b]`, although the source computes it with
      a running `start_block`/`end_block`. */
  lemma {:induction false} PlannerTrace<T>(maxId: int, nEpochs: int, nExecutionBlocks: int, mode: Mode<T>)
    requires Planner(maxId, nEpochs, nExecutionBlocks, mode).Planned?
    ensures var p := Planner(maxId, nEpochs, nExecutionBlocks, mode);
            p.trace == PlainTrace(p.epochs, mode)
  {
    var es := Planner(maxId, nEpochs, nExecutionBlocks, mode).epochs;
    match mode {
      case ByIndex =>
        EpochLinesByIndex<T>(es, None);
      case Grouped(idPairs) =>
        if maxId >= 0 {
          PlannerCoverage(maxId, nEpochs, nExecutionBlocks, mode);
          assert PySlice(idPairs, 0, 0) == [];
          EpochLinesGrouped(es, idPairs, None, 0, maxId);
        } else {
          PlannerCounts(maxId, nEpochs, nExecutionBlocks, mode);
        }
    }
  }

  /** `get_parallelization_epochs(logger, 20, 2, 2)`: two epochs of ten, each in two blocks of five. */
  lemma ExampleTwentyTwoByTwo()
    ensures Planner<int>(20, 2, 2, ByIndex)
         == Planned([Epoch(0, 10, [Range(0, 5), Range(5, 10)]), Epoch(10, 20, [Range(10, 15), Range(15, 20)])],
                    [EpochStart(0), EpochEnd(10), ParallelBlock(Range(0, 5)), ParallelBlock(Range(5, 10)),
                     EpochStart(10), EpochEnd(20), ParallelBlock(Range(10, 15)), ParallelBlock(Range(15, 20))])
  {
    var es := [Epoch(0, 10, [Range(0, 5), Range(5, 10)]), Epoch(10, 20, [Range(10, 15), Range(15, 20)])];
    TwentyInTwoEpochs(es);
    EpochLinesByIndex<int>(es, None);
    assert es[1..][1..] == [];
    assert BlockReports(es[0].epochRanges, Mode<int>.ByIndex) == [ParallelBlock(Range(0, 5)), ParallelBlock(Range(5, 10))];
    assert BlockReports(es[1].epochRanges, Mode<int>.ByIndex) == [ParallelBlock(Range(10, 15)), ParallelBlock(Range(15, 20))];
  }

  lemma TwentyInTwoEpochs(es: seq<Epoch>)
    requires es == [Epoch(0, 10, [Range(0, 5), Range(5, 10)]), Epoch(10, 20, [Range(10, 15), Range(15, 20)])]
    ensures BuildEpochs(Ranges(20, 0, 2), 2) == Some(es)
  {
    RangesShape(20, 0, 2);
    assert Ranges(20, 0, 2) == [Range(0, 10), Range(10, 20)];
    RangesShape(10, 0, 2);
    RangesShape(10, 10, 2);
    assert MakeEpoch(Range(10, 20), 2) == es[1];
    assert [Range(10, 20)][1..] == [] && BuildEpochs([], 2) == Some([]);
    assert es[1..] == [MakeEpoch(Range(10, 20), 2)] + [];
    assert BuildEpochs([Range(10, 20)], 2) == Some(es[1..]);
    assert [Range(0, 10), Range(10, 20)][1..] == [Range(10, 20)];
    assert MakeEpoch(Range(0, 10), 2) == es[0];
    assert es == [MakeEpoch(Range(0, 10), 2)] + es[1..];
  }

  /** One epoch of four grouped indices in two blocks: the block `[0, 2]`
      covers groups of one and two items and is reported as `[0, 3]`. */
  lemma ExampleGroupedTrace()
    ensures Planner(4, 1, 2, Grouped([[1], [2, 3], [4], [5]])).trace
         == [EpochStart(0), EpochEnd(4), ParallelBlock(Range(0, 3)), ParallelBlock(Range(3, 5))]
  {
    var blocks := [Range(0, 2), Range(2, 4)];
    RangesShape(4, 0, 1);
    RangesShape(4, 0, 2);
    assert Ranges(4, 0, 1) == [Range(0, 4)] && Ranges(4, 0, 2) == blocks;
    assert MakeEpoch(Range(0, 4), 2) == Epoch(0, 4, blocks);
    assert [Range(0, 4)][1..] == [] && BuildEpochs([], 2) == Some([]);
    assert BuildEpochs([Range(0, 4)], 2) == Some([Epoch(0, 4, blocks)] + []);
    GroupedTraceBlocks();
    var es := [Epoch(0, 4, blocks)];
    var mode: Mode<int> := Grouped([[1], [2, 3], [4], [5]]);
    assert Planner(4, 1, 2, mode) == Planned(es, EpochLines(es, mode, None));
    assert es[1..] == [];
    assert EpochLines(es, mode, None)
        == [EpochStart(0), EpochEnd(4)] + BlockLines(blocks, mode, None).0 + EpochLines([], mode, Some(5));
  }

  /** The block lines of `ExampleGroupedTrace`. */
  lemma GroupedTraceBlocks()
    ensures BlockLines([Range(0, 2), Range(2, 4)], Grouped([[1], [2, 3], [4], [5]]), None)
         == ([ParallelBlock(Range(0, 3)), ParallelBlock(Range(3, 5))], Some(5))
  {
    var g: seq<seq<int>> := [[1], [2, 3], [4], [5]];
    assert PySlice(g, 0, 2) == [[1], [2, 3]];
    assert PySlice(g, 0, 2)[1..] == [[2, 3]];
    assert PySlice(g, 2, 4) == [[4], [5]];
    assert PySlice(g, 2, 4)[1..] == [[5]];
    assert GroupedLength(g, 0, 2) == 3 && GroupedLength(g, 2, 4) == 2;
    var blocks := [Range(0, 2), Range(2, 4)];
    assert BlockLine(blocks[0], Grouped(g), None) == (ParallelBlock(Range(0, 3)), Some(3));
    var tail := [Range(2, 4)];
    var first := BlockLine(tail[0], Grouped(g), Some(3));
    assert first == (ParallelBlock(Range(3, 5)), Some(5));
    assert blocks[1..] == tail && tail[1..] == [] && BlockLines(tail[1..], Grouped(g), first.1) == ([], Some(5));
    assert [first.0] + [] == [ParallelBlock(Range(3, 5))];
    assert BlockLines(tail, Grouped(g), Some(3)) == ([ParallelBlock(Range(3, 5))], Some(5));
    assert [ParallelBlock(Range(0, 3))] + [ParallelBlock(Range(3, 5))]
        == [ParallelBlock(Range(0, 3)), ParallelBlock(Range(3, 5))];
  }
}
