/**
 * Two concrete runs of the stack, worked out step by step: an ordinary three-line group, and
 * a nested re-add that loses a skipped entry.
 */
module AlignScenarios {
  import opened AlignModel
  import opened AlignProperties

  const A := Chunk(1, 4, 3)
  const B := Chunk(2, 10, 2)
  const C := Chunk(3, 5, 6)

  /** After Start(3, 2): A is admitted and sets the edge to 7, B (column 10 > 7 + 2) is skipped. */
  lemma GroupOpens(s: State)
    ensures var s1 := Start(s, 3, 2);
      Add(Add(s1, A, 1), B, 2) ==
        s1.(aligned := [Entry(A, 1)], skipped := [Entry(B, 2)], nlSeqnum := 1, maxCol := 7)
  {
    var s1 := Start(s, 3, 2);
    AddWidens(s1, A, 1);
    var s2 := s1.(aligned := [Entry(A, 1)], nlSeqnum := 1, maxCol := 7);
    assert [] + [Entry(A, 1)] == [Entry(A, 1)];
    AddRejected(s2, B, 2);
  }

  /** C (column 5, end 11) widens the edge to 11; the re-add then admits B (column 10, within
      [9, 13]), whose end column 12 becomes the edge. */
  lemma WideningReAdmits(s3: State)
    requires s3.aligned == [Entry(A, 1)] && s3.skipped == [Entry(B, 2)]
    requires s3.maxCol == 7 && s3.thresh == 2 && s3.span == 3 && s3.seqnum == 0 && s3.nlSeqnum == 1
    ensures Add(s3, C, 2) ==
      s3.(aligned := [Entry(A, 1), Entry(C, 2), Entry(B, 2)], skipped := [], scratch := [Entry(B, 2)],
          nlSeqnum := 2, maxCol := 12)
  {
    var widened := s3.(aligned := [Entry(A, 1), Entry(C, 2)], nlSeqnum := 2, maxCol := 11);
    AddWidensReAdds(s3, C, 2);
    var snap := widened.(scratch := [Entry(B, 2)], skipped := []);
    var readded := snap.(aligned := [Entry(A, 1), Entry(C, 2), Entry(B, 2)], maxCol := 12);
    AddWidens(snap, B, 2);
    assert Replay(snap, 0, 1) == Replay(readded, 1, 1) == readded;
    NewLinesFlushesIff(readded, 0);
    assert ReAddSkipped(widened) == NewLines(readded, 0);
  }

  /** Two more lines stay within the span (2 <= 2 + 3); End then indents A, C, B in admission
      order, each to end at the common right edge 12. */
  lemma GroupCloses(s4: State)
    requires s4.aligned == [Entry(A, 1), Entry(C, 2), Entry(B, 2)] && s4.skipped == []
    requires s4.maxCol == 12 && s4.span == 3 && s4.seqnum == 0 && s4.nlSeqnum == 2
    ensures NewLines(s4, 2) == s4.(seqnum := 2)
    ensures End(NewLines(s4, 2)) ==
      s4.(aligned := [], maxCol := 0, seqnum := 2, emitted := s4.emitted + [Indent(A, 9), Indent(C, 6), Indent(B, 10)])
  {
    NewLinesFlushesIff(s4, 2);
    var s5 := s4.(seqnum := 2);
    FlushWithoutSkipped(s5);
    TargetsAt(s5.aligned, 12, 0);
    TargetsAt(s5.aligned, 12, 1);
    TargetsAt(s5.aligned, 12, 2);
    assert Targets(s5.aligned, 12) == [Indent(A, 9), Indent(C, 6), Indent(B, 10)];
  }

  /** The whole run: Start(3, 2), Add(A, 1), Add(B, 2), Add(C, 2), NewLines(2), End. */
  lemma ThreeLineGroup(s: State)
    ensures
      End(NewLines(Add(Add(Add(Start(s, 3, 2), A, 1), B, 2), C, 2), 2)) ==
        State([], [], [Entry(B, 2)], 0, 3, 2, 2, 2, s.emitted + [Indent(A, 9), Indent(C, 6), Indent(B, 10)])
  {
    GroupOpens(s);
    var s3 := Add(Add(Start(s, 3, 2), A, 1), B, 2);
    WideningReAdmits(s3);
    GroupCloses(Add(s3, C, 2));
  }

  const P := Chunk(4, 6, 4)
  const W := Chunk(5, 12, 2)
  const X := Chunk(6, 30, 1)
  const Y := Chunk(7, 15, 5)
  const Z := Chunk(8, 21, 1)

  /** The state the loss scenario starts from: P admitted with edge 10, threshold 2, and X, Y, Z
      skipped, all on line 1. */
  predicate LossStart(s: State)
  {
    s.aligned == [Entry(P, 1)] && s.skipped == [Entry(X, 1), Entry(Y, 1), Entry(Z, 1)] &&
    s.maxCol == 10 && s.thresh == 2 && s.span == 100 && s.seqnum == 1 && s.nlSeqnum == 1
  }

  /** Inside the outer re-add, Y widens the edge to 20 while X is skipped: the nested re-add
      overwrites the snapshot with [X], rejects X again and does not flush. */
  lemma NestedReAdd(afterX: State)
    requires afterX.aligned == [Entry(P, 1), Entry(W, 1)] && afterX.skipped == [Entry(X, 1)]
    requires afterX.maxCol == 14 && afterX.thresh == 2 && afterX.span == 100
    requires afterX.seqnum == 1 && afterX.nlSeqnum == 1
    ensures Add(afterX, Y, 1) ==
      afterX.(aligned := [Entry(P, 1), Entry(W, 1), Entry(Y, 1)], maxCol := 20, scratch := [Entry(X, 1)])
  {
    AddWidensReAdds(afterX, Y, 1);
    var nested := afterX.(aligned := [Entry(P, 1), Entry(W, 1), Entry(Y, 1)], maxCol := 20);
    var snap := nested.(scratch := [Entry(X, 1)], skipped := []);
    var done := snap.(skipped := [Entry(X, 1)]);
    AddRejected(snap, X, 1);
    assert Replay(snap, 0, 1) == Replay(done, 1, 1) == done;
    NewLinesFlushesIff(done, 0);
    assert ReAddSkipped(nested) == NewLines(done, 0);
  }

  /** Adding W widens the edge to 14 and re-adds X, Y, Z. X is rejected, Y is admitted and its
      nested re-add shortens the snapshot to [X], so the loop stops before reaching Z. */
  lemma OuterReAdd(s: State)
    requires LossStart(s)
    ensures Add(s, W, 1) ==
      s.(aligned := [Entry(P, 1), Entry(W, 1), Entry(Y, 1)], skipped := [Entry(X, 1)], maxCol := 20,
         scratch := [Entry(X, 1)])
  {
    AddWidensReAdds(s, W, 1);
    var widened := s.(aligned := [Entry(P, 1), Entry(W, 1)], maxCol := 14);
    var snap := widened.(scratch := s.skipped, skipped := []);
    var afterX := snap.(skipped := [Entry(X, 1)]);
    AddRejected(snap, X, 1);
    NestedReAdd(afterX);
    var r := afterX.(aligned := [Entry(P, 1), Entry(W, 1), Entry(Y, 1)], maxCol := 20, scratch := [Entry(X, 1)]);
    assert snap.scratch[0] == Entry(X, 1) && snap.scratch[1] == Entry(Y, 1);
    assert Add(snap, X, 1) == afterX;
    assert Replay(snap, 0, 3) == Replay(afterX, 1, 3);
    assert Add(afterX, Y, 1) == r;
    assert Replay(afterX, 1, 3) == Replay(r, 2, 3);
    assert Replay(r, 2, 3) == r;
    NewLinesFlushesIff(r, 0);
    assert NewLines(r, 0) == r;
    assert ReAddSkipped(widened) == NewLines(Replay(snap, 0, 3), 0);
    assert s.aligned + [Entry(W, 1)] == widened.aligned;
    assert Add(s, W, 1) == ReAddSkipped(widened);
  }

  /** The chunks the stack holds after the loss: P, W, Y admitted and X skipped. */
  lemma HeldAfterLoss(r: State)
    requires r.aligned == [Entry(P, 1), Entry(W, 1), Entry(Y, 1)] && r.skipped == [Entry(X, 1)]
    ensures Held(r) == multiset{P, W, Y, X} + IndentedChunks(r.emitted)
  {
    var pw := [Entry(P, 1), Entry(W, 1)];
    assert pw[..1] == [Entry(P, 1)] && [Entry(P, 1)][..0] == [];
    assert Chunks([Entry(P, 1)]) == multiset{P};
    assert Chunks(pw) == multiset{P, W};
    assert r.aligned[..2] == pw;
    assert Chunks(r.aligned) == multiset{P, W, Y};
    assert r.skipped[..0] == [];
    assert Chunks(r.skipped) == multiset{X};
  }

  /** After that Add, Z is no longer held anywhere: neither aligned, nor skipped, nor indented,
      although it was skipped before and its column 21 lies in the band [18, 22] of the new edge. */
  lemma NestedReAddDropsEntry(s: State)
    requires LossStart(s)
    ensures var r := Add(s, W, 1);
      r.emitted == s.emitted && Admits(r.maxCol, r.thresh, Z.column) &&
      Z in Chunks(s.skipped) && Z !in Held(r) - IndentedChunks(s.emitted)
  {
    OuterReAdd(s);
    HeldAfterLoss(Add(s, W, 1));
    assert s.skipped[..2] == [Entry(X, 1), Entry(Y, 1)];
  }

  const Q := Chunk(9, 30, 2)

  /** A second Flush is a no-op only when nothing was skipped. Here the one skipped entry (line 1)
      is older than the flushed A (line 5) and is pruned, so the first Flush leaves nlSeqnum at 5;
      the second finds nothing skipped and moves it to the line counter 9. */
  lemma SecondFlushResyncs()
    ensures var s := State([Entry(A, 5)], [Entry(Q, 1)], [], 7, 100, 2, 9, 5, []);
      Flush(s) == State([], [], [], 0, 100, 2, 9, 5, [Indent(A, 4)]) &&
      Flush(Flush(s)) == Flush(s).(nlSeqnum := 9)
  {
    var s := State([Entry(A, 5)], [Entry(Q, 1)], [], 7, 100, 2, 9, 5, []);
    FlushReplaysSurvivors(s);
    assert Prune([Entry(Q, 1)], 5) == [] by {
      assert [Entry(Q, 1)][..0] == [];
    }
    assert Targets([Entry(A, 5)], 7) == [Indent(A, 4)] by {
      assert [Entry(A, 5)][..0] == [];
    }
    var f := State([], [], [], 0, 100, 2, 9, 5, [Indent(A, 4)]);
    assert Flush(s) == f;
    FlushWithoutSkipped(f);
    assert Targets([], 0) == [];
  }

  /** Here the skipped entry (line 3) is newer than the flushed A (line 1): the first Flush
      re-admits it against the reset edge, so the group is not empty and the second Flush
      indents it. */
  lemma SecondFlushIndentsReadmitted()
    ensures var s := State([Entry(A, 1)], [Entry(Q, 3)], [], 7, 100, 2, 9, 5, []);
      Flush(s) == State([Entry(Q, 3)], [], [Entry(Q, 3)], 32, 100, 2, 9, 5, [Indent(A, 4)]) &&
      Flush(Flush(s)).emitted == [Indent(A, 4), Indent(Q, 30)]
  {
    var s := State([Entry(A, 1)], [Entry(Q, 3)], [], 7, 100, 2, 9, 5, []);
    FlushReplaysSurvivors(s);
    assert Prune([Entry(Q, 3)], 1) == [Entry(Q, 3)] by {
      assert [Entry(Q, 3)][..0] == [];
    }
    assert Targets([Entry(A, 1)], 7) == [Indent(A, 4)] by {
      assert [Entry(A, 1)][..0] == [];
    }
    var pruned := State([], [Entry(Q, 3)], [], 0, 100, 2, 9, 5, [Indent(A, 4)]);
    var snap := pruned.(scratch := [Entry(Q, 3)], skipped := []);
    var f := State([Entry(Q, 3)], [], [Entry(Q, 3)], 32, 100, 2, 9, 5, [Indent(A, 4)]);
    AddWidens(snap, Q, 3);
    assert Add(snap, Q, 3) == f;
    assert Replay(snap, 0, 1) == Replay(f, 1, 1) == f;
    NewLinesFlushesIff(f, 0);
    assert ReAddSkipped(pruned) == NewLines(f, 0);
    assert Flush(s) == f;
    FlushWithoutSkipped(f);
    assert Targets([Entry(Q, 3)], 32) == [Indent(Q, 30)] by {
      assert [Entry(Q, 3)][..0] == [];
    }
  }

  /** The line counter starts at 0 and only NewLines advances it, while Add takes the caller's
      seqnum as given: admitting A under seqnum 5 right after Start puts nlSeqnum above seqnum. */
  lemma ExplicitSeqnumPassesCounter(s: State)
    ensures var r := Add(Start(s, 3, 2), A, 5);
      r.seqnum == 0 && r.nlSeqnum == 5 && r.aligned == [Entry(A, 5)]
  {
    var s1 := Start(s, 3, 2);
    AddWidens(s1, A, 5);
    assert [] + [Entry(A, 5)] == [Entry(A, 5)];
  }

  /** Once the edge lies further right than a positive threshold, a chunk at column 0 fails the test
      and is skipped like any other chunk left of the band. */
  lemma ColumnZeroSkipped(s: State, pc: Chunk, seqnum: int)
    requires pc.column == 0 && s.thresh > 0 && s.maxCol > s.thresh
    ensures Add(s, pc, seqnum) == s.(skipped := s.skipped + [Entry(pc, AssignedSeqnum(s, seqnum))])
  {
    AddRejected(s, pc, seqnum);
  }
}
