/**
 * The AlignStack object: the same state machine run in place. Each method does what the
 * corresponding member function does, field by field and loop by loop, and is proved to
 * leave the object in exactly the state the pure model in align_model.dfy computes.
 *
 * The chunk stacks are sequences that the methods reassign: Push is an append, Reset is
 * the empty sequence, Set is a copy, and the zap loop followed by Collapse is a filter.
 * The external indent_to_column call appends one Indent to the ghost log `emitted`.
 */
module AlignStacks {
  import opened AlignModel

  datatype Option<T> = None | Some(value: T)

  class AlignStack {
    var aligned: seq<Entry>
    var skipped: seq<Entry>
    var scratch: seq<Entry>
    var maxCol: nat
    var span: int
    var thresh: int
    var seqnum: int
    var nlSeqnum: int
    /** The indent_to_column calls made so far. */
    ghost var emitted: seq<Indent>

    ghost function Abs(): State
      reads this
    {
      State(aligned, skipped, scratch, maxCol, span, thresh, seqnum, nlSeqnum, emitted)
    }

    method Start(span: int, thresh: int)
      modifies this
      ensures Abs() == AlignModel.Start(old(Abs()), span, thresh)
    {
      aligned := [];
      skipped := [];
      this.span := span;
      this.thresh := thresh;
      maxCol := 0;
      nlSeqnum := 0;
      this.seqnum := 0;
    }

    /** Calls Add on every skipped entry, through the scratch copy. */
    method ReAddSkipped()
      modifies this
      ensures Abs() == AlignModel.ReAddSkipped(old(Abs()))
      decreases |skipped|, if maxCol == 0 then 1 else 4, 0
    {
      if skipped != [] {
        ghost var k := |skipped|;
        scratch := skipped;
        skipped := [];
        ghost var snap := Abs();
        var idx := 0;
        while idx < |scratch|
          invariant idx <= k && |scratch| <= k && |skipped| <= idx
          invariant Replay(Abs(), idx, k) == Replay(snap, 0, k)
          decreases k - idx
        {
          var ce := scratch[idx];
          Add(ce.pc, ce.seqnum);
          idx := idx + 1;
        }
        NewLines(0);
      }
    }

    /** Adds the chunk to the aligned list or to the skipped list. A seqnum of 0 means
        "use the line counter". */
    method Add(pc: Chunk, seqnum: int)
      modifies this
      ensures Abs() == AlignModel.Add(old(Abs()), pc, seqnum)
      decreases |skipped|, 5, 0
    {
      var sq := seqnum;
      if sq == 0 {
        sq := this.seqnum;
      }
      if maxCol == 0 || thresh == 0 ||
         (pc.column <= maxCol + thresh && pc.column >= maxCol - thresh)
      {
        if sq > nlSeqnum {
          nlSeqnum := sq;
        }
        aligned := aligned + [Entry(pc, sq)];
        var endcol := pc.column + pc.len;
        if endcol > maxCol {
          maxCol := endcol;
          if skipped != [] {
            ReAddSkipped();
          }
        }
      } else {
        skipped := skipped + [Entry(pc, sq)];
      }
    }

    /** Counts cnt more lines and flushes when the span is exceeded. */
    method NewLines(cnt: int)
      modifies this
      ensures Abs() == AlignModel.NewLines(old(Abs()), cnt)
      decreases |skipped|, 3, 0
    {
      ghost var s0 := Abs();
      if aligned != [] {
        seqnum := seqnum + cnt;
        assert Abs() == s0.(seqnum := s0.seqnum + cnt);
        if seqnum > nlSeqnum + span {
          Flush();
        }
      }
    }

    /** Indents the aligned entries and re-adds the newer skipped ones. */
    method Flush()
      modifies this
      ensures Abs() == AlignModel.Flush(old(Abs()))
      decreases |skipped|, 2, 0
    {
      ghost var s0 := Abs();
      var lastSeqnum := 0;
      var ce: Option<Entry> := None;
      var idx := 0;
      while idx < |aligned|
        modifies this`emitted
        invariant idx <= |aligned|
        invariant ce == if idx == 0 then None else Some(aligned[idx - 1])
        invariant emitted == s0.emitted + Targets(aligned[..idx], maxCol)
      {
        ce := Some(aligned[idx]);
        // indent_to_column(ce.pc, maxCol - ce.pc.len), right-aligning the token
        emitted := emitted + [Indent(aligned[idx].pc, maxCol - aligned[idx].pc.len)];
        assert aligned[..idx + 1][..idx] == aligned[..idx];
        idx := idx + 1;
      }
      assert aligned[..idx] == aligned;
      if ce.Some? {
        lastSeqnum := ce.value.seqnum;
        aligned := [];
      }
      maxCol := 0;
      ghost var flushed := Abs();
      assert flushed == s0.(aligned := [], maxCol := 0, emitted := s0.emitted + Targets(s0.aligned, s0.maxCol));

      if skipped == [] {
        nlSeqnum := seqnum;
      } else {
        // Zap every entry older than lastSeqnum, then Collapse
        var kept := [];
        idx := 0;
        while idx < |skipped|
          modifies {}
          invariant idx <= |skipped|
          invariant kept == Prune(skipped[..idx], lastSeqnum)
        {
          assert skipped[..idx + 1][..idx] == skipped[..idx];
          if !(skipped[idx].seqnum < lastSeqnum) {
            kept := kept + [skipped[idx]];
          }
          idx := idx + 1;
        }
        assert skipped[..idx] == skipped;
        skipped := kept;
        assert lastSeqnum == LastSeqnum(s0.aligned);
        assert Abs() == flushed.(skipped := Prune(s0.skipped, lastSeqnum));
        ReAddSkipped();
      }
    }

    /** Flushes what is aligned and empties both lists. */
    method End()
      modifies this
      ensures Abs() == AlignModel.End(old(Abs()))
    {
      if aligned != [] {
        Flush();
      }
      aligned := [];
      skipped := [];
    }
  }
}
