# Alignment stack

A Dafny model of uncrustify's alignment stack (`AlignStack` in `src/align_stack.cpp`). The stack
is the single-pass engine that decides which tokens on consecutive lines line up at a common
right edge, and it computes that edge. It keeps two chunk stacks:

- `aligned` holds the tokens admitted to the current group.
- `skipped` holds the tokens that the column threshold turned away.

It also keeps a `scratch` stack, which re-adding walks, the right edge `max_col`, the row span,
the column threshold, a line counter `seqnum`, and `nl_seqnum`, the seqnum of the last admission.

The model has three layers.

- `AlignModel` (align_model.dfy) is the stack as a pure state machine. It defines the `State`
  datatype and one function per member function: `Start`, `Add`, `ReAddSkipped` (with its
  loop as `Replay`), `NewLines`, `Flush` and `End`.
  - The four mutually recursive operations terminate under the lexicographic measure
    (|skipped|, rank, rest of the loop), with no fuel and no bound.
  - Every call of the external `indent_to_column(pc, col)` appends `Indent(pc, col)` to the
    `emitted` log.
- `AlignStacks.AlignStack` (align_stack.dfy) is the object itself. It is a class with the same
  fields, and its methods run the same loops and the same mutual recursion in place.
  - Each method is proved to leave the object in exactly the state the pure function computes.
  - `Push` is an append, `Reset` is the empty sequence and `Set` is a copy.
  - The zap loop followed by `Collapse` is an order-preserving filter.
- `AlignProperties` (align_properties.dfy) and `AlignScenarios` (align_scenarios.dfy) state
  and prove what the stack promises, and work through concrete runs.

Behaviour of the code that the model follows, and that a reader might not expect:

- `m_scratch` is a member, not a local. A nested `ReAddSkipped`, reached through `Add` or through
  `NewLines(0)` and `Flush`, overwrites the snapshot that the outer loop is walking. The outer
  loop re-reads its length and stops early, so skipped entries can be lost.
  - `NestedReAddDropsEntry` shows a chunk that is lost this way, although it lies within the
    threshold.
  - What holds instead is that no chunk is ever invented or duplicated: see the `...Conserves`
    lemmas.
- A re-admitted entry can widen the edge itself. In `ThreeLineGroup`, C widens the edge to 11,
  B is re-admitted, and B's end column 12 becomes the edge. End then indents A, C, B to 9, 6, 10.
- The line counter starts at 0 after `Start` and only `NewLines` advances it. `Add` stores the
  caller's seqnum unchanged, so `nl_seqnum` can exceed the counter, as
  `ExplicitSeqnumPassesCounter` shows.
- Once the edge lies further right than a positive threshold, a chunk at column 0 is left of
  the band and is skipped (`ColumnZeroSkipped`).
- A second `Flush` with nothing added in between changes nothing only when nothing is skipped
  (`FlushIdempotent`). Otherwise it can change state:
  - When every skipped entry is pruned, the first flush leaves `nl_seqnum` as it was and the
    second sets it to the counter (`SecondFlushResyncs`).
  - When a skipped entry survives, the first flush re-admits it against the reset edge and the
    second indents it (`SecondFlushIndentsReadmitted`).
- The in-order replay of a re-add is proved whenever the replay is quiet, that is, no replayed
  entry widens the edge while other entries are skipped (`ReplayQuietInOrder`,
  `FlushReplayInOrder`). A replay that starts a nested re-add is the case that can lose entries.

## Model

| member | source | states |
|---|---|---|
| AlignModel.Add | src/align_stack.cpp:64-118 | span, thresh and the line counter are unchanged and the indent log is only appended to; skipped grows by at most the one chunk, and not at all when the chunk passes the threshold; the snapshot is kept or replaced by one no longer than the old skipped list; unless something was indented, the admitted group, max_col and nl_seqnum only grow |
| AlignModel.Replay | src/align_stack.cpp:46-51 | the re-add loop from index idx keeps span, thresh and the counter, adds at most one skipped entry per remaining snapshot entry and strictly fewer when the first one is admitted, and leaves a snapshot no longer than the original |
| AlignModel.ReAddSkipped | src/align_stack.cpp:35-56 | re-adding never grows the skipped list, strictly shrinks a non-empty one when max_col is 0 (right after a flush), and only appends to the indent log |
| AlignModel.NewLines | src/align_stack.cpp:123-138 | the line counter advances by exactly cnt when the group is non-empty and not at all otherwise; skipped never grows |
| AlignModel.Flush | src/align_stack.cpp:144-187 | the indent log is extended first by one target per admitted entry, in order, and span, thresh and the counter are kept; skipped never grows |
| AlignModel.Targets | src/align_stack.cpp:152-158 | the flush loop makes exactly one indent call per admitted entry |
| AlignModel.Admits | src/align_stack.cpp:73-75 | with a non-negative threshold the edge column itself always passes; with an edge and a negative threshold nothing passes |
| AlignModel.AssignedSeqnum | src/align_stack.cpp:67-70 | a non-zero seqnum is kept; otherwise the line counter is used, so a stored 0 means the counter was 0 |
| AlignModel.LastSeqnum | src/align_stack.cpp:146-163 | the prune bound is 0 when the group was empty |
| AlignModel.Start | src/align_stack.cpp:19-30 | Start drops every held chunk without indenting it, stores span and thresh, and the fresh group admits any column |
| AlignModel.End | src/align_stack.cpp:192-202 | after End both lists are empty; the indent log is unchanged for an empty group and otherwise extended first by the targets of the admitted entries |
| AlignModel.Prune | src/align_stack.cpp:174-182 | the zap-and-collapse pass never lengthens the skipped list |
| AlignModel.IndentedTargets | src/align_stack.cpp:152-158 | the chunks a flush indents are exactly the admitted chunks, with multiplicity |
| AlignModel.FlushedHeld | src/align_stack.cpp:152-165 | emptying the group into the indent log keeps every chunk accounted for |
| AlignStacks.AlignStack.Start | src/align_stack.cpp:19-30 | the object after Start is the pure Start of its old state |
| AlignStacks.AlignStack.ReAddSkipped | src/align_stack.cpp:35-56 | the snapshot loop, with a nested re-add overwriting the scratch member, yields the pure ReAddSkipped |
| AlignStacks.AlignStack.Add | src/align_stack.cpp:64-118 | the object after Add is the pure Add of its old state |
| AlignStacks.AlignStack.NewLines | src/align_stack.cpp:123-138 | the object after NewLines is the pure NewLines of its old state |
| AlignStacks.AlignStack.Flush | src/align_stack.cpp:144-187 | the indent loop and the zap loop yield the pure Flush: the log gets the targets in order and skipped is filtered before re-adding |
| AlignStacks.AlignStack.End | src/align_stack.cpp:192-202 | the object after End is the pure End of its old state |
| AlignProperties.StartResets | src/align_stack.cpp:19-30 | after Start both lists are empty, max_col, nl_seqnum and the counter are 0, span and thresh are as given, and nothing is indented |
| AlignProperties.AdmitsBandInclusive | src/align_stack.cpp:73-75 | both ends of the threshold band admit, and the columns just beyond either end do not |
| AlignProperties.AddRejected | src/align_stack.cpp:66-117 | a rejected chunk is appended to skipped with the given seqnum, or the counter when that is 0, and nothing else changes |
| AlignProperties.AddWithinEdge | src/align_stack.cpp:77-108 | an admitted chunk ending within max_col is appended to aligned, nl_seqnum becomes max(old, seqnum), and max_col and skipped stay |
| AlignProperties.AddWidens | src/align_stack.cpp:77-101 | an admitted chunk ending past max_col with nothing skipped also sets max_col to its end column and does nothing more |
| AlignProperties.AddWidensReAdds | src/align_stack.cpp:77-101 | an admitted chunk ending past max_col with entries skipped sets the edge and then re-adds the skipped entries against it |
| AlignProperties.AddDefersIff | src/align_stack.cpp:72-117 | Add appends the chunk to skipped if and only if the threshold test fails |
| AlignProperties.NewLinesIdle | src/align_stack.cpp:123-125 | with no admitted entries NewLines changes nothing |
| AlignProperties.NewLinesFlushesIff | src/align_stack.cpp:123-138 | with admitted entries the counter advances by cnt; something is indented if and only if the counter passes nl_seqnum + span, and then the admitted entries first; otherwise the counter is the only change |
| AlignProperties.TargetsAt | src/align_stack.cpp:152-158 | the i-th indent of a flush is the i-th admitted chunk with target max_col - len |
| AlignProperties.FlushIndents | src/align_stack.cpp:152-158 | Flush indents every admitted entry in insertion order so that it ends exactly at max_col |
| AlignProperties.FlushWithoutSkipped | src/align_stack.cpp:160-171 | with nothing skipped, Flush leaves an empty group, max_col 0 and nl_seqnum equal to the counter |
| AlignProperties.FlushIdempotent | src/align_stack.cpp:144-171 | with nothing skipped, a second Flush changes nothing and indents nothing (with entries skipped it can, see SecondFlushResyncs and SecondFlushIndentsReadmitted) |
| AlignProperties.FlushReplaysSurvivors | src/align_stack.cpp:160-186 | with entries skipped, Flush prunes them against the seqnum of the last flushed entry and re-adds the survivors against max_col 0 |
| AlignProperties.PruneKeepsExactlyFresh | src/align_stack.cpp:174-182 | an entry survives pruning if and only if it was skipped and its seqnum is not below the last flushed seqnum |
| AlignProperties.PruneDistributes | src/align_stack.cpp:174-182 | pruning distributes over concatenation, so survivors keep their relative order |
| AlignProperties.PruneKeepsFresh | src/align_stack.cpp:174-182 | when no skipped entry is older than the last flushed one, pruning keeps them all |
| AlignProperties.ReplayRejectedInOrder | src/align_stack.cpp:43-51 | replaying entries that all fail the threshold appends them to skipped in snapshot order, each with its stored seqnum (0 replaced by the counter) |
| AlignProperties.ReAddAllRejected | src/align_stack.cpp:35-56 | re-adding a skipped list that still fails the threshold puts every entry back in order and ends with NewLines(0) |
| AlignProperties.InterleavesCounts | src/align_stack.cpp:35-56 | splitting the replayed entries between aligned and skipped loses and duplicates none of them |
| AlignProperties.QuietStep | src/align_stack.cpp:64-118 | an Add that does not re-add appends the stamped entry to aligned if it passes the threshold and to skipped otherwise, and changes neither the snapshot nor the indent log |
| AlignProperties.ReplayQuietInOrder | src/align_stack.cpp:43-51 | a quiet replay hands every pending snapshot entry, in snapshot order and with its stored seqnum, to exactly one of the two lists |
| AlignProperties.ReAddQuietInOrder | src/align_stack.cpp:35-56 | a quiet re-add re-adds every skipped entry in order, each to aligned or back to skipped, then counts zero lines |
| AlignProperties.WithinEdgeQuiet | src/align_stack.cpp:72-101 | when no admissible pending entry ends past the edge, the replay is quiet |
| AlignProperties.Survivors | src/align_stack.cpp:152-182 | the state Flush re-adds from has an empty group, edge 0 and no more skipped entries than before |
| AlignProperties.FlushReplayInOrder | src/align_stack.cpp:160-186 | after a flush with a quiet replay, the survivors are re-added in order, each exactly once, and the first survivor is always admitted |
| AlignProperties.EndDiscardsSkipped | src/align_stack.cpp:192-202 | after End both lists are empty; it flushes only a non-empty group; leftover skipped entries are dropped without being indented, and so are entries that the flush re-admitted into the group, since End resets aligned after the flush |
| AlignProperties.AddConserves | src/align_stack.cpp:64-118 | the chunks held or indented after Add are at most those before plus the added chunk: nothing is invented or duplicated |
| AlignProperties.ReplayConserves | src/align_stack.cpp:46-51 | the re-add loop holds or indents at most the chunks held before plus those still pending in the snapshot |
| AlignProperties.ReAddConserves | src/align_stack.cpp:35-56 | re-adding never invents or duplicates a chunk |
| AlignProperties.NewLinesConserves | src/align_stack.cpp:123-138 | NewLines never invents or duplicates a chunk |
| AlignProperties.FlushConserves | src/align_stack.cpp:144-187 | Flush never invents or duplicates a chunk: indented, pruned and re-added chunks all come from the stack |
| AlignScenarios.GroupOpens | src/align_stack.cpp:64-117 | after Start(3, 2), A is admitted with edge 7 and B at column 10 is skipped |
| AlignScenarios.WideningReAdmits | src/align_stack.cpp:35-118 | C widens the edge to 11, the re-add admits B, and B's end column 12 becomes the edge |
| AlignScenarios.GroupCloses | src/align_stack.cpp:123-202 | NewLines(2) stays within the span; End indents A, C, B in order to 9, 6 and 10 |
| AlignScenarios.ThreeLineGroup | src/align_stack.cpp:19-202 | the whole three-line run ends with empty lists, counter 2 and the three indents in admission order |
| AlignScenarios.NestedReAdd | src/align_stack.cpp:35-118 | a re-added chunk that widens the edge starts a nested re-add that overwrites the snapshot with the entries still skipped |
| AlignScenarios.OuterReAdd | src/align_stack.cpp:35-56 | after the nested re-add the outer loop stops early, before reaching the last snapshot entry |
| AlignScenarios.HeldAfterLoss | src/align_stack.cpp:40-51 | after that run the stack holds only the admitted P, W, Y and the skipped X |
| AlignScenarios.NestedReAddDropsEntry | src/align_stack.cpp:40-51 | a skipped chunk within the threshold of the new edge is neither aligned, nor skipped, nor indented after the re-add |
| AlignScenarios.SecondFlushResyncs | src/align_stack.cpp:160-186 | when every skipped entry is pruned, the first Flush keeps nl_seqnum at 5 and a second one moves it to the counter 9 |
| AlignScenarios.SecondFlushIndentsReadmitted | src/align_stack.cpp:144-186 | when a skipped entry survives, the first Flush re-admits it with edge 32 and a second Flush indents it to 30 |
| AlignScenarios.ExplicitSeqnumPassesCounter | src/align_stack.cpp:64-92 | right after Start, admitting under seqnum 5 leaves the counter at 0 and nl_seqnum at 5 |
| AlignScenarios.ColumnZeroSkipped | src/align_stack.cpp:72-117 | with an edge beyond a positive threshold, a chunk at column 0 is appended to skipped and nothing else changes |

## Left out

- `LOG_FMT` diagnostics are left out. They only write to the log and change no state.
- `indent_to_column` is an external call. Each call is recorded as an entry of the ghost `emitted` log. Its write to the chunk's column is not modelled, so `Chunk.column` keeps the value Add saw.
- The `ChunkStack` implementation (align_stack.h) is not part of this model. Only the operations the stack uses are modelled, on sequences: Push, Get, Len, Empty, Reset, Set, and Zap followed by Collapse.
- `chunk_t` is reduced to an identity, `column` and `len`. `orig_line` appears only in log messages.
- src/options.h is not part of this model. span and thresh arrive as two resolved integers.
- C `int` overflow in `m_max_col + m_thresh`, `pc->column + pc->len` and `m_seqnum += cnt` is not modelled, because the model uses mathematical integers.
- AlignModel.State: `max_col` is a `nat`. The code only ever sets it to 0 or to an end column above its old value, so with non-negative columns and lengths it is never negative. A negative end column can never raise it above 0.
- AlignProperties.AddConserves: states that chunks are kept at most once (multiset inclusion), not that every chunk is kept. The nested re-add can lose skipped entries, as `NestedReAddDropsEntry` shows. The same holds for ReplayConserves, ReAddConserves, NewLinesConserves and FlushConserves.
- AlignModel.Flush: its contract states the prefix of the indent log that the flush loop writes. What the re-add writes after that is stated by the lemmas FlushWithoutSkipped and FlushReplaysSurvivors.
- AlignModel.ReAddSkipped: the in-order replay of every skipped entry is proved only for quiet replays, where no replayed entry widens the edge while others are skipped (ReplayQuietInOrder, FlushReplayInOrder). When a nested re-add does start, the outer loop stops early and no in-order promise holds, as NestedReAddDropsEntry shows.
- AlignModel.LastSeqnum: its contract states only the empty-group case. That the bound is the seqnum of the last entry the indent loop visited is proved by the loop invariant of AlignStacks.AlignStack.Flush.
