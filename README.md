# Work-partitioning planner of nlp_pubmed_tfidf, in Dafny

This project models the planner in `tools.py`. The pipeline uses it to split a flat list of
work items into a multiprocessing plan. It has two parts:

- `get_ranges(n_size, n_start, n_chunks)` splits the indices `[n_start, n_start + n_size)`
  into contiguous `[start, end]` ranges. Every range has length
  `range_size = n_size / n_chunks`, rounded down, except the last, which takes the
  remainder. When there are fewer indices than chunks, each range has length 1.
  Module `RangePartition`, file `range_partition.dfy`.
- `get_parallelization_epochs(logger, max_id, N_epochs, N_execution_blocks, is_list_of_list, id_pairs)`
  runs in four steps:
  - It returns `None` when either count is negative.
  - It splits `[0, max_id)` into epochs, which run one after another.
  - It splits each epoch into execution blocks, which run in parallel.
  - It logs the plan. In grouped mode (`is_list_of_list`), each block `[a, b]` is logged as a
    running count of the items held by the groups `id_pairs[a:b]`.

  Module `EpochPlanner`, file `epoch_planner.dfy`. The arithmetic for Python slices and item
  counts is in module `GroupedWork`, file `grouped_work.dfy`.

The source builds its results by appending inside loops. The model keeps those loops as
methods: `GetRanges`, `CollectEpochs`, `TracePlan` and `TraceBlocks`. Each method is proved
equal to a specification function: `Ranges`, `BuildEpochs`, `EpochLines` and `BlockLines`.
`GetParallelizationEpochs` is proved equal to `Planner`. The lemmas then state the
properties of those functions:

- the number of ranges
- exact coverage with no gaps or overlaps (`Tiles`)
- the length of each range
- the error cases
- the nesting of blocks inside epochs
- a stateless reading of the grouped trace

A call has three outcomes (`Outcome`):

- `Rejected`: the source returns `None`.
- `ZeroDivision`: a zero count passes the source's guard, and `get_ranges` then raises
  `ZeroDivisionError`.
- `Planned(epochs, trace)`: the epoch dicts, plus the logged plan as data. The trace is
  `EpochStart`, `EpochEnd` and `ParallelBlock` lines.

`is_list_of_list` together with `id_pairs` becomes `Mode.ByIndex | Mode.Grouped(idPairs)`.

The guard at tools.py:62 rejects only negative counts, so a zero count gets past it. A zero
epoch count reaches the division at tools.py:29 whenever `max_id >= 0`, and a zero block
count reaches it as soon as there is an epoch. The model reports both as `ZeroDivision`. For
zero epochs with a negative `max_id` the source never divides, and the model returns an
empty plan.

## Model

| member | source | states |
|---|---|---|
| `RangePartition.RangeSize` | tools.py:28-31 | the step is at least 1, and with `n_size >= n_chunks` it is the floor of `n_size / n_chunks` (`n_chunks * q <= n_size < n_chunks * (q + 1)`) |
| `RangePartition.GetRanges` | tools.py:25-39 | the loop's result is `Ranges(n_size, n_start, n_chunks)`; it has `min(n_chunks, n_size)` ranges (none when `n_size <= 0`); for `n_size >= 0` they tile `[n_start, n_start + n_size)` |
| `RangePartition.SteppedAt` | tools.py:33-34 | `for i in range(i0, i0 + m*step, step)` appends exactly `m` ranges, the j-th being `[base + i0 + j*step, base + i0 + j*step + step]` |
| `RangePartition.RangesShape` | tools.py:28-37 | closed form: with `n_size >= n_chunks`, there are `n_chunks` ranges of the base length starting at `n_start + j*q`, and the last ends at `n_start + n_size`; otherwise there are `max(n_size, 0)` unit ranges |
| `RangePartition.RangesCount` | tools.py:28-37 | `get_ranges` returns `min(n_chunks, n_size)` ranges, and none when `n_size <= 0` |
| `RangePartition.RangesTile` | tools.py:33-37 | the ranges are non-empty. The first starts at `n_start`, each starts where the previous one ends, and the last ends at `n_start + n_size`. The result is empty exactly when `n_size = 0` |
| `RangePartition.RangesLengths` | tools.py:28-37 | with `n_size >= n_chunks >= 1`, the first `n_chunks - 1` ranges have length `n_size div n_chunks`, and the last has `n_size div n_chunks + n_size mod n_chunks` |
| `RangePartition.RangesUnits` | tools.py:30-34 | with `n_size < n_chunks`, every range has length 1 |
| `RangePartition.RangesExactlyOne` | tools.py:28-37 | every index of `[n_start, n_start + n_size)` lies in exactly one range of `get_ranges`, and no other index lies in any range |
| `RangePartition.TilesOrdered` | tools.py:33-37 | in a tiling, an earlier range ends no later than a later one starts (no overlaps) |
| `RangePartition.TilesCover` | tools.py:33-37 | an index lies in `[lo, hi)` exactly when some range of the tiling holds it |
| `RangePartition.TilesDisjoint` | tools.py:33-37 | no index lies in two ranges of a tiling |
| `RangePartition.TilesWithin` | tools.py:33-37 | every range of a tiling of `[lo, hi)` lies inside `[lo, hi)` |
| `RangePartition.TilesAppend` | tools.py:68-75 | tilings of adjacent intervals concatenate to a tiling of their union |
| `RangePartition.ExampleTenInThree` | tools.py:25-39 | `get_ranges(10, 0, 3)` is `[[0,3],[3,6],[6,10]]` |
| `RangePartition.ExampleOneInFive` | tools.py:25-39 | `get_ranges(1, 0, 5)` is `[[0,1]]` |
| `GroupedWork.SliceBound` | tools.py:92 | a Python slice bound is clamped into `[0, len]`: in-range bounds are unchanged, bounds past the end become `len`, a negative bound counts from the end, and one below `-len` becomes 0 |
| `GroupedWork.PySlice` | tools.py:92 | `id_pairs[a:b]`: the elements from the normalised lower bound on, as many as the normalised bounds are apart, and `[]` when they cross (a bound below `-len` becomes 0, one past the end becomes `len`) |
| `GroupedWork.LenSumBounds` | tools.py:92 | `LenSum`, which models `sum([len(v) for v in groups])`, is at least the length of every group, and zero exactly when every group is empty |
| `GroupedWork.LenSumAppend` | tools.py:92 | the item count of two runs of groups put end to end is the sum of their item counts |
| `GroupedWork.GroupedLength` | tools.py:92 | the items in `id_pairs[a:b]` are at most the items of all groups, all of them for a slice over the whole list, and none when the normalised bounds cross |
| `GroupedWork.GroupedLengthIsDifference` | tools.py:92 | for `0 <= a <= b`, the items in `id_pairs[a:b]` are the items before `b` minus the items before `a`, even when `b` runs past the end of `id_pairs` |
| `GroupedWork.ExampleFirstTwoGroups` | tools.py:92 | groups of lengths 1, 2, 1: the slice `[0:2]` holds 3 items |
| `EpochPlanner.GetParallelizationEpochs` | tools.py:54-97 | the guard, the epoch loop and the logging loops together compute `Planner(max_id, N_epochs, N_execution_blocks, mode)` |
| `EpochPlanner.CollectEpochs` | tools.py:65-75 | the epoch loop gives `BuildEpochs`: one epoch per range in order, or `None` at the first range that is not `Partitionable` by the block count (for the non-negative counts past the guard, the division by zero in `get_ranges`) |
| `EpochPlanner.TracePlan` | tools.py:80-93 | the outer logging loop produces `EpochLines(epochs, mode, None)` |
| `EpochPlanner.TraceBlocks` | tools.py:86-93 | the inner logging loop produces the lines and the new `end_block` of `BlockLines` |
| `EpochPlanner.BlockLine` | tools.py:87-93 | one pass of the block loop: outside grouped mode the block itself with `end_block` untouched; in grouped mode a line from `0 if start_block is None else end_block` (`start_block` and `end_block` are `None` together) over the block's items, which becomes the new `end_block`, and equals the block's item counts `[items before a, items before b]` when `end_block` counted the items before `a` |
| `EpochPlanner.BuildEpochsSome` | tools.py:65-75 | the built epochs have exactly the given ranges as `[start_epoch, end_epoch]`. Each epoch's `epoch_ranges` is `get_ranges(end - start, start, N_execution_blocks)` |
| `EpochPlanner.BuildEpochsNone` | tools.py:68-70 | building fails exactly when some epoch's size is not `Partitionable` by the block count; past the guard at tools.py:62, that is when its `get_ranges` call divides by zero |
| `EpochPlanner.PlannerRejected` | tools.py:62-63 | the call returns `None` exactly when `N_epochs < 0` or `N_execution_blocks < 0` |
| `EpochPlanner.PlannerZeroDivision` | tools.py:62-70 | past the guard, the call divides by zero exactly when `N_epochs = 0` and `max_id >= 0`, or when `N_execution_blocks = 0` and `max_id > 0` |
| `EpochPlanner.PlannerEpochs` | tools.py:65-75 | a plan's epoch bounds are `get_ranges(max_id, 0, N_epochs)` in order. Each epoch's blocks are `get_ranges` of that epoch's size, offset to its start |
| `EpochPlanner.EpochsTile` | tools.py:65-75 | epochs built that way tile `[0, max_id)` and are non-empty, and each epoch is tiled by its own blocks |
| `EpochPlanner.AllBlocksTile` | tools.py:65-75 | if the epochs tile `[lo, hi)` and each epoch is tiled by its blocks, then all blocks in order tile `[lo, hi)` |
| `EpochPlanner.PlannerCoverage` | tools.py:65-75 | for `max_id >= 0`: the epochs tile `[0, max_id)`; each epoch's blocks tile it and lie inside it; all blocks of all epochs, in order, tile `[0, max_id)` |
| `EpochPlanner.PlannerExactlyOneBlock` | tools.py:65-75 | every index of `[0, max_id)` is run by exactly one block of the plan, and no other index is run by any block |
| `EpochPlanner.PlannerCounts` | tools.py:65-75 | a plan has `min(N_epochs, max_id)` epochs (none when `max_id <= 0`). An epoch of `size` indices has `min(N_execution_blocks, size)` blocks |
| `EpochPlanner.PlannerModeIndependent` | tools.py:80-97 | the reporting mode affects neither whether the call plans nor the epochs it returns |
| `EpochPlanner.BlockLinesByIndex` | tools.py:86-88 | outside grouped mode, each block is logged as its own index range, and `end_block` is untouched |
| `EpochPlanner.EpochLinesByIndex` | tools.py:81-88 | outside grouped mode, the trace is each epoch's start and end followed by its blocks |
| `EpochPlanner.BlockLinesGrouped` | tools.py:90-93 | for contiguous blocks from `lo` with the carried `end_block` equal to the items before `lo`: each block `[a, b]` is logged as `[items before a, items before b]`, and the carried count ends at the items before `hi` |
| `EpochPlanner.EpochLinesGrouped` | tools.py:80-93 | the same holds across epochs when `end_block` carries over from one epoch to the next |
| `EpochPlanner.PlannerTrace` | tools.py:80-93 | a plan's trace equals `PlainTrace`: each epoch's start and end, then each block logged either as its index range or, in grouped mode, as `[sum of len(id_pairs[i]) for i < a, same for i < b]` |
| `EpochPlanner.ExampleTwentyTwoByTwo` | tools.py:54-97 | `max_id = 20` with 2 epochs and 2 blocks gives the epochs `[0,10]` and `[10,20]`, with blocks `[0,5],[5,10]` and `[10,15],[15,20]`, and the matching trace |
| `EpochPlanner.ExampleGroupedTrace` | tools.py:80-93 | four grouped indices in one epoch of two blocks, with group lengths 1, 2, 1, 1: the blocks are logged as `[0,3]` and `[3,5]` |

## Left out

- `get_or_create_directory` (tools.py:12-18) creates a directory on disk, which is filesystem I/O.
- The logger and the text of the log lines are not modelled. The trace is returned as
  `TraceLine` values, and the separator lines around the plan are omitted.
- `GetRanges` requires `n_chunks >= 1 || n_size < n_chunks` (`Partitionable`): a positive
  chunk count, or fewer indices than chunks, where the step is 1. Outside it:
  - with `n_chunks = 0` and `n_size >= 0`, the source raises `ZeroDivisionError`;
  - with a negative `n_chunks` and `n_size > n_chunks`, the step is zero, on which `range()`
    raises `ValueError`, or negative;
  - with `n_size == n_chunks < 0`, the step is 1 and the source returns the single range
    `[n_start + n_chunks - 1, n_start + n_chunks]`, which the model does not cover.
  The guard at tools.py:62 rejects every negative count before `get_ranges` is called, so the
  last two cases cannot arise from the planner. The model reports its zero-count case as
  `ZeroDivision`.
- `range_size` is computed in the source as `int(float(n_size) / n_chunks)`. The model uses
  integer floor division, which agrees with it for sizes below 2^53. Floating-point rounding
  of larger sizes is not modelled.
- Grouped mode with `id_pairs = None` raises `TypeError` in the source whenever the plan has
  a block (tools.py:92); with no blocks it returns the plan without error. `Mode.Grouped`
  always carries its `id_pairs`, so that crash cannot be expressed.
- The multiprocessing dispatcher that consumes the plan is not part of this model, since it
  is concurrency. The same goes for the CLI, corpus scanning and content-API clients in
  `pubmed_tfidf/`.
