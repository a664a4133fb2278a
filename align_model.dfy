/**
 * The alignment stack as a pure state machine.
 *
 * An alignment stack is a pair of chunk stacks: `aligned` holds the tokens admitted to the
 * current alignment group, `skipped` the tokens the column threshold turned away. A third
 * stack, `scratch`, is the snapshot that re-adding walks. Every operation of the stack is a
 * function from the old State to the new one; the class in align_stack.dfy runs the same
 * steps in place and is proved equal to these functions.
 *
 * Add, ReAddSkipped (with its loop, Replay), NewLines and Flush call one another. They
 * terminate under the measure (|skipped|, rank, rest of the loop): adding grows `skipped`
 * by at most one entry, re-adding starts from an empty `skipped`, and a re-add entered
 * with max_col == 0 (after a flush) always admits its first entry.
 */
module AlignModel {

  /** The token handle as the stack sees it: an identity, its column and its rendered length. */
  datatype Chunk = Chunk(id: nat, column: int, len: int)

  /** An entry of a chunk stack: the chunk and the line counter value it was added under. */
  datatype Entry = Entry(pc: Chunk, seqnum: int)

  /** One call of the external indent_to_column(pc, column). */
  datatype Indent = Indent(pc: Chunk, column: int)

  /**
   * The members of the stack. `emitted` is the log of indent_to_column calls made so far;
   * it is not part of the object, it stands for the effect on the token stream.
   * maxCol is a nat: it is only ever set to 0 or to an end column above its old value.
   */
  datatype State = State(
    aligned: seq<Entry>,
    skipped: seq<Entry>,
    scratch: seq<Entry>,
    maxCol: nat,
    span: int,
    thresh: int,
    seqnum: int,
    nlSeqnum: int,
    emitted: seq<Indent>)

  /** The threshold test of Add: admit when there is no reference column, no threshold,
      or the column lies in the inclusive band [maxCol - thresh, maxCol + thresh]. */
  predicate Admits(maxCol: int, thresh: int, column: int): (r: bool)
    ensures thresh >= 0 && column == maxCol ==> r
    ensures maxCol != 0 && thresh < 0 ==> !r
  {
    maxCol == 0 || thresh == 0 || (column <= maxCol + thresh && column >= maxCol - thresh)
  }

  /** The seqnum an entry is stored under: the argument, or the line counter when it is 0. */
  function AssignedSeqnum(s: State, seqnum: int): (r: int)
    ensures seqnum != 0 ==> r == seqnum
    ensures r == seqnum || r == s.seqnum
    ensures r == 0 ==> s.seqnum == 0
  {
    if seqnum == 0 then s.seqnum else seqnum
  }

  /** The indent_to_column calls Flush makes for the admitted entries, in order:
      each token is right-aligned so that it ends at maxCol. */
  function Targets(es: seq<Entry>, maxCol: int): (r: seq<Indent>)
    ensures |r| == |es|
  {
    if es == [] then []
    else
      var e := es[|es| - 1];
      Targets(es[..|es| - 1], maxCol) + [Indent(e.pc, maxCol - e.pc.len)]
  }

  /** The zap-then-collapse pass of Flush: drop the entries whose seqnum is below
      lastSeqnum, keep the others in their order. */
  function Prune(es: seq<Entry>, lastSeqnum: int): (r: seq<Entry>)
    ensures |r| <= |es|
  {
    if es == [] then []
    else
      var rest := Prune(es[..|es| - 1], lastSeqnum);
      if es[|es| - 1].seqnum < lastSeqnum then rest else rest + [es[|es| - 1]]
  }

  /** The seqnum of the last admitted entry, 0 when there is none. */
  function LastSeqnum(aligned: seq<Entry>): (r: int)
    ensures aligned == [] ==> r == 0
  {
    if aligned == [] then 0 else aligned[|aligned| - 1].seqnum
  }

  /** The entries of the snapshot that the re-add loop has not reached yet. */
  function Pending(s: State, idx: nat): seq<Entry>
  {
    if idx <= |s.scratch| then s.scratch[idx..] else []
  }

  // ---------------------------------------------------------------------------
  // Accounting for chunks

  function Chunks(es: seq<Entry>): multiset<Chunk>
  {
    if es == [] then multiset{} else Chunks(es[..|es| - 1]) + multiset{es[|es| - 1].pc}
  }

  function IndentedChunks(log: seq<Indent>): multiset<Chunk>
  {
    if log == [] then multiset{} else IndentedChunks(log[..|log| - 1]) + multiset{log[|log| - 1].pc}
  }

  /** Every chunk the stack holds, counted once per entry, plus every chunk it has indented. */
  function Held(s: State): multiset<Chunk>
  {
    Chunks(s.aligned) + Chunks(s.skipped) + IndentedChunks(s.emitted)
  }

  lemma {:induction false} ChunksConcat(a: seq<Entry>, b: seq<Entry>)
    ensures Chunks(a + b) == Chunks(a) + Chunks(b)
    decreases |b|
  {
    if b != [] {
      var b' := b[..|b| - 1];
      assert (a + b)[..|a + b| - 1] == a + b';
      ChunksConcat(a, b');
    } else {
      assert a + b == a;
    }
  }

  lemma {:induction false} IndentedConcat(x: seq<Indent>, y: seq<Indent>)
    ensures IndentedChunks(x + y) == IndentedChunks(x) + IndentedChunks(y)
    decreases |y|
  {
    if y != [] {
      var y' := y[..|y| - 1];
      assert (x + y)[..|x + y| - 1] == x + y';
      IndentedConcat(x, y');
    } else {
      assert x + y == x;
    }
  }

  /** Flushing moves exactly the admitted chunks into the indent log. */
  lemma {:induction false} IndentedTargets(es: seq<Entry>, maxCol: int)
    ensures IndentedChunks(Targets(es, maxCol)) == Chunks(es)
    decreases |es|
  {
    if es != [] {
      var e := es[|es| - 1];
      IndentedTargets(es[..|es| - 1], maxCol);
      IndentedConcat(Targets(es[..|es| - 1], maxCol), [Indent(e.pc, maxCol - e.pc.len)]);
      assert IndentedChunks([Indent(e.pc, maxCol - e.pc.len)]) == multiset{e.pc} by {
        assert [Indent(e.pc, maxCol - e.pc.len)][..0] == [];
      }
    }
  }

  lemma {:induction false} PruneChunks(es: seq<Entry>, lastSeqnum: int)
    ensures Chunks(Prune(es, lastSeqnum)) <= Chunks(es)
    decreases |es|
  {
    if es != [] {
      var rest := Prune(es[..|es| - 1], lastSeqnum);
      PruneChunks(es[..|es| - 1], lastSeqnum);
      if es[|es| - 1].seqnum >= lastSeqnum {
        assert (rest + [es[|es| - 1]])[..|rest|] == rest;
      }
    }
  }

  lemma PendingStep(s: State, idx: nat)
    requires idx < |s.scratch|
    ensures Chunks(Pending(s, idx)) == multiset{s.scratch[idx].pc} + Chunks(Pending(s, idx + 1))
  {
    assert s.scratch[idx..] == [s.scratch[idx]] + s.scratch[idx + 1..];
    ChunksConcat([s.scratch[idx]], s.scratch[idx + 1..]);
    assert [s.scratch[idx]][..0] == [];
  }

  /** Moving the admitted group into the indent log keeps every chunk accounted for. */
  lemma FlushedHeld(s: State)
    ensures Held(s.(aligned := [], maxCol := 0, emitted := s.emitted + Targets(s.aligned, s.maxCol)))
            == Held(s)
  {
    IndentedConcat(s.emitted, Targets(s.aligned, s.maxCol));
    IndentedTargets(s.aligned, s.maxCol);
    assert Chunks([]) == multiset{};
  }

  // ---------------------------------------------------------------------------
  // What every operation keeps

  /** r is a later state of the same run: same span and threshold, indent log only appended to. */
  predicate SameRun(s: State, r: State)
  {
    r.span == s.span && r.thresh == s.thresh && s.emitted <= r.emitted
  }

  /** Unless something was indented in between, the admitted group only grew: its entries are
      kept in order, the right edge did not move left and the last admission seqnum did not drop. */
  predicate GroupGrows(s: State, r: State)
  {
    r.emitted == s.emitted ==>
      s.aligned <= r.aligned && s.maxCol <= r.maxCol && s.nlSeqnum <= r.nlSeqnum
  }

  // ---------------------------------------------------------------------------
  // The operations

  /** Start(span, thresh): empty both lists, store span and thresh, zero the counters. */
  function Start(s: State, span: int, thresh: int): (r: State)
    ensures Held(r) == IndentedChunks(s.emitted)
    ensures forall column :: Admits(r.maxCol, r.thresh, column)
    ensures r.emitted == s.emitted && r.span == span && r.thresh == thresh
  {
    s.(aligned := [], skipped := [], span := span, thresh := thresh,
       maxCol := 0, nlSeqnum := 0, seqnum := 0)
  }

  /** Add(pc, seqnum): admit the chunk or set it aside; widening the right edge re-adds the
      skipped entries. */
  function Add(s: State, pc: Chunk, seqnum: int): (r: State)
    ensures SameRun(s, r) && r.seqnum == s.seqnum
    ensures |r.skipped| <= |s.skipped| + (if Admits(s.maxCol, s.thresh, pc.column) then 0 else 1)
    ensures r.scratch == s.scratch || |r.scratch| <= |s.skipped|
    ensures GroupGrows(s, r)
    decreases |s.skipped|, 5, 0
  {
    var sq := AssignedSeqnum(s, seqnum);
    var e := Entry(pc, sq);
    if Admits(s.maxCol, s.thresh, pc.column) then
      var nl := if sq > s.nlSeqnum then sq else s.nlSeqnum;
      var admitted := s.(nlSeqnum := nl, aligned := s.aligned + [e]);
      var endcol := pc.column + pc.len;
      if endcol > s.maxCol then
        var widened := admitted.(maxCol := endcol);
        if widened.skipped != [] then ReAddSkipped(widened) else widened
      else admitted
    else
      s.(skipped := s.skipped + [e])
  }

  /** The loop of ReAddSkipped: for idx < |scratch|, Add(scratch[idx]) with its stored seqnum.
      The bound on |scratch| is re-read at every step, and a nested re-add may have replaced
      scratch. k bounds the length of the snapshot. */
  function Replay(s: State, idx: nat, k: nat): (r: State)
    requires idx <= k && |s.scratch| <= k && |s.skipped| <= idx
    ensures SameRun(s, r) && r.seqnum == s.seqnum
    ensures |r.skipped| <= |s.skipped| + (k - idx)
    ensures idx < |s.scratch| && Admits(s.maxCol, s.thresh, s.scratch[idx].pc.column) ==>
              |r.skipped| < |s.skipped| + (k - idx)
    ensures |r.scratch| <= k
    ensures GroupGrows(s, r)
    decreases k, 0, k - idx
  {
    if idx < |s.scratch| then
      var ce := s.scratch[idx];
      var next := Add(s, ce.pc, ce.seqnum);
      Replay(next, idx + 1, k)
    else
      s
  }

  /** ReAddSkipped: snapshot skipped into scratch, clear skipped, replay the snapshot in order,
      then NewLines(0) to flush at once if needed. */
  function ReAddSkipped(s: State): (r: State)
    ensures SameRun(s, r) && r.seqnum == s.seqnum
    ensures |r.skipped| <= |s.skipped|
    ensures s.maxCol == 0 && s.skipped != [] ==> |r.skipped| < |s.skipped|
    ensures r.scratch == s.scratch || |r.scratch| <= |s.skipped|
    ensures GroupGrows(s, r)
    decreases |s.skipped|, if s.maxCol == 0 then 1 else 4, 0
  {
    if s.skipped == [] then s
    else
      var k := |s.skipped|;
      var snap := s.(scratch := s.skipped, skipped := []);
      NewLines(Replay(snap, 0, k), 0)
  }

  /** NewLines(cnt): with an empty group nothing happens; otherwise advance the line counter
      and flush when it has gone past the last admission by more than span. */
  function NewLines(s: State, cnt: int): (r: State)
    ensures SameRun(s, r) && r.seqnum == s.seqnum + (if s.aligned == [] then 0 else cnt)
    ensures |r.skipped| <= |s.skipped|
    ensures r.scratch == s.scratch || |r.scratch| <= |s.skipped|
    ensures GroupGrows(s, r)
    decreases |s.skipped|, 3, 0
  {
    if s.aligned == [] then s
    else
      var counted := s.(seqnum := s.seqnum + cnt);
      if counted.seqnum > counted.nlSeqnum + counted.span then Flush(counted) else counted
  }

  /** Flush: indent every admitted entry to maxCol - len, in order; empty the group and reset
      maxCol. With nothing skipped, resynchronise nlSeqnum; otherwise drop the skipped entries
      older than the last flushed one and re-add the rest. */
  function Flush(s: State): (r: State)
    ensures SameRun(s, r) && r.seqnum == s.seqnum
    ensures s.emitted + Targets(s.aligned, s.maxCol) <= r.emitted
    ensures |r.skipped| <= |s.skipped|
    ensures r.scratch == s.scratch || |r.scratch| <= |s.skipped|
    decreases |s.skipped|, 2, 0
  {
    var log := s.emitted + Targets(s.aligned, s.maxCol);
    var flushed := s.(aligned := [], maxCol := 0, emitted := log);
    if s.skipped == [] then
      flushed.(nlSeqnum := s.seqnum)
    else
      var last := LastSeqnum(s.aligned);
      var pruned := flushed.(skipped := Prune(s.skipped, last));
      ReAddSkipped(pruned)
  }

  /** End: flush a non-empty group, then empty both lists; what is still skipped is dropped. */
  function End(s: State): (r: State)
    ensures r.aligned == [] && r.skipped == []
    ensures s.aligned == [] ==> r.emitted == s.emitted
    ensures s.aligned != [] ==> s.emitted + Targets(s.aligned, s.maxCol) <= r.emitted
  {
    var flushed := if s.aligned != [] then Flush(s) else s;
    flushed.(aligned := [], skipped := [])
  }
}
