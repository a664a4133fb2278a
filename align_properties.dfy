/**
 * What the alignment stack promises, stated and proved about the pure model.
 */
module AlignProperties {
  import opened AlignModel

  // ---------------------------------------------------------------------------
  // Start

  lemma StartResets(s: State, span: int, thresh: int)
    ensures var r := Start(s, span, thresh);
      r.aligned == [] && r.skipped == [] && r.maxCol == 0 && r.nlSeqnum == 0 && r.seqnum == 0 &&
      r.span == span && r.thresh == thresh && r.emitted == s.emitted
  {
  }

  // ---------------------------------------------------------------------------
  // Add: the threshold band

  /** Both ends of the band are inside it, the columns just beyond either end are not. */
  lemma AdmitsBandInclusive(maxCol: int, thresh: int)
    requires maxCol != 0 && thresh > 0
    ensures Admits(maxCol, thresh, maxCol - thresh) && Admits(maxCol, thresh, maxCol + thresh)
    ensures !Admits(maxCol, thresh, maxCol - thresh - 1) && !Admits(maxCol, thresh, maxCol + thresh + 1)
  {
  }

  /** A rejected chunk is appended to skipped and nothing else changes. */
  lemma AddRejected(s: State, pc: Chunk, seqnum: int)
    requires !Admits(s.maxCol, s.thresh, pc.column)
    ensures Add(s, pc, seqnum) == s.(skipped := s.skipped + [Entry(pc, AssignedSeqnum(s, seqnum))])
  {
  }

  /** An admitted chunk that ends within the current right edge is appended to aligned and
      raises nlSeqnum to its seqnum; maxCol and skipped stay. */
  lemma AddWithinEdge(s: State, pc: Chunk, seqnum: int)
    requires Admits(s.maxCol, s.thresh, pc.column) && pc.column + pc.len <= s.maxCol
    ensures var sq := AssignedSeqnum(s, seqnum);
      Add(s, pc, seqnum) ==
        s.(aligned := s.aligned + [Entry(pc, sq)], nlSeqnum := if sq > s.nlSeqnum then sq else s.nlSeqnum)
  {
  }

  /** An admitted chunk that ends past the right edge moves the edge to its end column;
      with nothing skipped, nothing else happens. */
  lemma AddWidens(s: State, pc: Chunk, seqnum: int)
    requires Admits(s.maxCol, s.thresh, pc.column) && pc.column + pc.len > s.maxCol
    requires s.skipped == []
    ensures var sq := AssignedSeqnum(s, seqnum);
      Add(s, pc, seqnum) ==
        s.(aligned := s.aligned + [Entry(pc, sq)], nlSeqnum := if sq > s.nlSeqnum then sq else s.nlSeqnum,
           maxCol := pc.column + pc.len)
  {
  }

  /** An admitted chunk that ends past the right edge while entries are skipped moves the edge
      and then re-adds every skipped entry against the new edge. */
  lemma AddWidensReAdds(s: State, pc: Chunk, seqnum: int)
    requires Admits(s.maxCol, s.thresh, pc.column) && pc.column + pc.len > s.maxCol
    requires s.skipped != []
    ensures var sq := AssignedSeqnum(s, seqnum);
      Add(s, pc, seqnum) ==
        ReAddSkipped(s.(aligned := s.aligned + [Entry(pc, sq)],
                        nlSeqnum := if sq > s.nlSeqnum then sq else s.nlSeqnum,
                        maxCol := pc.column + pc.len))
  {
  }

  /** Add defers the chunk (appends it to skipped) exactly when the threshold test fails. */
  lemma AddDefersIff(s: State, pc: Chunk, seqnum: int)
    ensures Add(s, pc, seqnum).skipped == s.skipped + [Entry(pc, AssignedSeqnum(s, seqnum))]
            <==> !Admits(s.maxCol, s.thresh, pc.column)
  {
    var r := Add(s, pc, seqnum);
    if Admits(s.maxCol, s.thresh, pc.column) {
      assert |r.skipped| < |s.skipped + [Entry(pc, AssignedSeqnum(s, seqnum))]|;
    }
  }

  // ---------------------------------------------------------------------------
  // NewLines

  /** With no admitted entries NewLines changes nothing, not even the line counter. */
  lemma NewLinesIdle(s: State, cnt: int)
    requires s.aligned == []
    ensures NewLines(s, cnt) == s
  {
  }

  /** With admitted entries the line counter advances by exactly cnt, and the stack indents
      something exactly when the counter passes nlSeqnum + span. Without a flush the counter is
      the only change; with one, the admitted entries are indented first. */
  lemma NewLinesFlushesIff(s: State, cnt: int)
    requires s.aligned != []
    ensures NewLines(s, cnt).seqnum == s.seqnum + cnt
    ensures |NewLines(s, cnt).emitted| > |s.emitted| <==> s.seqnum + cnt > s.nlSeqnum + s.span
    ensures s.seqnum + cnt > s.nlSeqnum + s.span ==>
              s.emitted + Targets(s.aligned, s.maxCol) <= NewLines(s, cnt).emitted
    ensures s.seqnum + cnt <= s.nlSeqnum + s.span ==> NewLines(s, cnt) == s.(seqnum := s.seqnum + cnt)
  {
    var counted := s.(seqnum := s.seqnum + cnt);
    if s.seqnum + cnt > s.nlSeqnum + s.span {
      var r := Flush(counted);
      assert |s.emitted + Targets(s.aligned, s.maxCol)| > |s.emitted|;
      assert |r.emitted| >= |s.emitted + Targets(s.aligned, s.maxCol)|;
    }
  }

  // ---------------------------------------------------------------------------
  // Flush

  /** Targets has one indent per entry, in order, each ending at the right edge. */
  lemma {:induction false} TargetsAt(es: seq<Entry>, maxCol: int, i: nat)
    requires i < |es|
    ensures Targets(es, maxCol)[i] == Indent(es[i].pc, maxCol - es[i].pc.len)
    decreases |es|
  {
    if i < |es| - 1 {
      TargetsAt(es[..|es| - 1], maxCol, i);
    }
  }

  /** Flush calls indent_to_column once per admitted entry, in insertion order, each with
      target maxCol - len, so that every aligned token ends at the common right edge. */
  lemma FlushIndents(s: State, i: nat)
    requires i < |s.aligned|
    ensures var r := Flush(s);
      |s.emitted| + i < |r.emitted| &&
      r.emitted[|s.emitted| + i] == Indent(s.aligned[i].pc, s.maxCol - s.aligned[i].pc.len) &&
      r.emitted[|s.emitted| + i].column + s.aligned[i].pc.len == s.maxCol
  {
    var r := Flush(s);
    var log := s.emitted + Targets(s.aligned, s.maxCol);
    TargetsAt(s.aligned, s.maxCol, i);
    assert log[|s.emitted| + i] == Targets(s.aligned, s.maxCol)[i];
    assert r.emitted[..|log|] == log;
  }

  /** With nothing skipped, Flush leaves an empty group, max_col 0 and nlSeqnum == seqnum. */
  lemma FlushWithoutSkipped(s: State)
    requires s.skipped == []
    ensures Flush(s) == s.(aligned := [], maxCol := 0, nlSeqnum := s.seqnum,
                           emitted := s.emitted + Targets(s.aligned, s.maxCol))
  {
  }

  /** A second Flush with nothing added in between changes nothing and indents nothing. */
  lemma FlushIdempotent(s: State)
    requires s.skipped == []
    ensures Flush(Flush(s)) == Flush(s)
  {
    var r := Flush(s);
    assert r.aligned == [] && r.skipped == [];
    assert Targets(r.aligned, r.maxCol) == [];
    assert r.emitted + [] == r.emitted;
  }

  /** With entries skipped, Flush drops those older than the last flushed entry and re-adds the
      survivors, in their order, against a right edge reset to 0. */
  lemma FlushReplaysSurvivors(s: State)
    requires s.skipped != []
    ensures Flush(s) == ReAddSkipped(s.(aligned := [], maxCol := 0,
                                        emitted := s.emitted + Targets(s.aligned, s.maxCol),
                                        skipped := Prune(s.skipped, LastSeqnum(s.aligned))))
  {
  }

  /** An entry survives pruning exactly when it was skipped and is not older than lastSeqnum. */
  lemma {:induction false} PruneKeepsExactlyFresh(es: seq<Entry>, lastSeqnum: int, e: Entry)
    ensures e in Prune(es, lastSeqnum) <==> e in es && e.seqnum >= lastSeqnum
    decreases |es|
  {
    if es != [] {
      var init := es[..|es| - 1];
      PruneKeepsExactlyFresh(init, lastSeqnum, e);
      assert es == init + [es[|es| - 1]];
    }
  }

  /** Pruning is a filter: it distributes over concatenation, so survivors keep their order. */
  lemma {:induction false} PruneDistributes(a: seq<Entry>, b: seq<Entry>, lastSeqnum: int)
    ensures Prune(a + b, lastSeqnum) == Prune(a, lastSeqnum) + Prune(b, lastSeqnum)
    decreases |b|
  {
    if b == [] {
      assert a + b == a;
    } else {
      var b' := b[..|b| - 1];
      assert (a + b)[..|a + b| - 1] == a + b';
      PruneDistributes(a, b', lastSeqnum);
    }
  }

  /** When no skipped entry is older than the last flushed one, Flush keeps them all. */
  lemma {:induction false} PruneKeepsFresh(es: seq<Entry>, lastSeqnum: int)
    requires forall i :: 0 <= i < |es| ==> es[i].seqnum >= lastSeqnum
    ensures Prune(es, lastSeqnum) == es
    decreases |es|
  {
    if es != [] {
      PruneKeepsFresh(es[..|es| - 1], lastSeqnum);
      assert es[..|es| - 1] + [es[|es| - 1]] == es;
    }
  }

  // ---------------------------------------------------------------------------
  // ReAddSkipped

  /** A replayed entry passes through Add again with its stored seqnum, so a stored 0 is
      replaced by the line counter. */
  function Restamped(es: seq<Entry>, seqnum: int): (r: seq<Entry>)
  {
    if es == [] then []
    else [Entry(es[0].pc, if es[0].seqnum == 0 then seqnum else es[0].seqnum)] + Restamped(es[1..], seqnum)
  }

  /** Replaying entries that all fail the threshold again appends them to skipped in snapshot
      order, index by index. */
  lemma {:induction false} ReplayRejectedInOrder(s: State, idx: nat, k: nat)
    requires idx <= k && |s.scratch| <= k && |s.skipped| <= idx
    requires forall j :: idx <= j < |s.scratch| ==> !Admits(s.maxCol, s.thresh, s.scratch[j].pc.column)
    ensures Replay(s, idx, k) == s.(skipped := s.skipped + Restamped(Pending(s, idx), s.seqnum))
    decreases k - idx
  {
    if idx < |s.scratch| {
      var ce := s.scratch[idx];
      var next := Add(s, ce.pc, ce.seqnum);
      AddRejected(s, ce.pc, ce.seqnum);
      ReplayRejectedInOrder(next, idx + 1, k);
      assert Pending(s, idx) == [ce] + Pending(s, idx + 1);
      assert s.skipped + Restamped(Pending(s, idx), s.seqnum) ==
             next.skipped + Restamped(Pending(next, idx + 1), s.seqnum);
    } else {
      assert s.skipped + [] == s.skipped;
    }
  }

  /** Re-adding a skipped list that still fails the threshold clears it and puts every entry
      back, in its original order, before the final NewLines(0). */
  lemma ReAddAllRejected(s: State)
    requires s.skipped != []
    requires forall j :: 0 <= j < |s.skipped| ==> !Admits(s.maxCol, s.thresh, s.skipped[j].pc.column)
    ensures ReAddSkipped(s) ==
              NewLines(s.(scratch := s.skipped, skipped := Restamped(s.skipped, s.seqnum)), 0)
  {
    var snap := s.(scratch := s.skipped, skipped := []);
    ReplayRejectedInOrder(snap, 0, |s.skipped|);
    assert Pending(snap, 0) == s.skipped;
    assert [] + Restamped(s.skipped, s.seqnum) == Restamped(s.skipped, s.seqnum);
  }

  /** a and r split es between them: each entry of es goes to exactly one of the two, and each
      keeps the order it has in es. */
  predicate Interleaves(a: seq<Entry>, r: seq<Entry>, es: seq<Entry>)
    decreases |es|
  {
    if es == [] then a == [] && r == []
    else
      (a != [] && a[0] == es[0] && Interleaves(a[1..], r, es[1..])) ||
      (r != [] && r[0] == es[0] && Interleaves(a, r[1..], es[1..]))
  }

  /** Nothing is lost or duplicated by a split. */
  lemma {:induction false} InterleavesCounts(a: seq<Entry>, r: seq<Entry>, es: seq<Entry>)
    requires Interleaves(a, r, es)
    ensures multiset(a) + multiset(r) == multiset(es)
    decreases |es|
  {
    if es != [] {
      assert es == [es[0]] + es[1..];
      if a != [] && a[0] == es[0] && Interleaves(a[1..], r, es[1..]) {
        InterleavesCounts(a[1..], r, es[1..]);
        assert a == [a[0]] + a[1..];
      } else {
        InterleavesCounts(a, r[1..], es[1..]);
        assert r == [r[0]] + r[1..];
      }
    }
  }

  /** No step of the replay from idx re-adds recursively: every snapshot entry is rejected,
      ends within the edge, or widens it while nothing is skipped. This is always the case
      for the first entry of a re-add, which starts from an empty skipped list. */
  predicate Quiet(s: State, idx: nat, k: nat)
    requires idx <= k && |s.scratch| <= k && |s.skipped| <= idx
    decreases k - idx
  {
    if idx < |s.scratch| then
      var ce := s.scratch[idx];
      (!Admits(s.maxCol, s.thresh, ce.pc.column) || ce.pc.column + ce.pc.len <= s.maxCol || s.skipped == []) &&
      Quiet(Add(s, ce.pc, ce.seqnum), idx + 1, k)
    else
      true
  }

  /** One quiet step: Add appends the stamped entry to aligned or to skipped and touches
      neither the snapshot nor the indent log. */
  lemma QuietStep(s: State, pc: Chunk, seqnum: int)
    requires !Admits(s.maxCol, s.thresh, pc.column) || pc.column + pc.len <= s.maxCol || s.skipped == []
    ensures var r := Add(s, pc, seqnum);
      var e := Entry(pc, AssignedSeqnum(s, seqnum));
      r.scratch == s.scratch && r.emitted == s.emitted && r.seqnum == s.seqnum &&
      if Admits(s.maxCol, s.thresh, pc.column)
      then r.aligned == s.aligned + [e] && r.skipped == s.skipped
      else r.aligned == s.aligned && r.skipped == s.skipped + [e]
  {
    if !Admits(s.maxCol, s.thresh, pc.column) {
      AddRejected(s, pc, seqnum);
    } else if pc.column + pc.len <= s.maxCol {
      AddWithinEdge(s, pc, seqnum);
    } else {
      AddWidens(s, pc, seqnum);
    }
  }

  /** Restamping the pending entries from idx: the entry at idx first, then the rest. */
  lemma RestampedPending(s: State, idx: nat, j: nat)
    requires idx < |s.scratch| && j == idx + 1
    ensures Restamped(Pending(s, idx), s.seqnum) ==
      [Entry(s.scratch[idx].pc, AssignedSeqnum(s, s.scratch[idx].seqnum))] + Restamped(Pending(s, j), s.seqnum)
  {
    assert Pending(s, idx)[1..] == Pending(s, j);
  }

  /** A quiet replay hands every pending snapshot entry, in snapshot order and with its stored
      seqnum (0 replaced by the line counter), to exactly one of the two lists: the admitted
      ones are appended to aligned, the rejected ones to skipped. */
  lemma {:induction false} ReplayQuietInOrder(s: State, idx: nat, k: nat)
    requires idx <= k && |s.scratch| <= k && |s.skipped| <= idx
    requires Quiet(s, idx, k)
    ensures var r := Replay(s, idx, k);
      r.emitted == s.emitted && r.scratch == s.scratch && r.seqnum == s.seqnum &&
      s.aligned <= r.aligned && s.skipped <= r.skipped &&
      Interleaves(r.aligned[|s.aligned|..], r.skipped[|s.skipped|..], Restamped(Pending(s, idx), s.seqnum))
    decreases k - idx
  {
    if idx < |s.scratch| {
      var ce := s.scratch[idx];
      var e := Entry(ce.pc, AssignedSeqnum(s, ce.seqnum));
      var next := Add(s, ce.pc, ce.seqnum);
      var j: nat := idx + 1;
      assert Replay(s, idx, k) == Replay(next, j, k);
      QuietStep(s, ce.pc, ce.seqnum);
      assert Quiet(next, j, k);
      ReplayQuietInOrder(next, j, k);
      RestampedPending(s, idx, j);
      var r := Replay(next, j, k);
      var rest := Restamped(Pending(next, j), s.seqnum);
      assert Restamped(Pending(s, idx), s.seqnum) == [e] + rest;
      if Admits(s.maxCol, s.thresh, ce.pc.column) {
        assert r.aligned[|s.aligned|..][0] == e;
        assert r.aligned[|s.aligned|..][1..] == r.aligned[|next.aligned|..];
      } else {
        assert r.skipped[|s.skipped|..][0] == e;
        assert r.skipped[|s.skipped|..][1..] == r.skipped[|next.skipped|..];
      }
      assert ([e] + rest)[1..] == rest;
    } else {
      assert Replay(s, idx, k) == s;
      assert Pending(s, idx) == [];
    }
  }

  /** A quiet re-add empties skipped and re-adds every entry, in its order and with its stored
      seqnum, to aligned or back to skipped, then counts zero lines. */
  lemma ReAddQuietInOrder(s: State)
    requires s.skipped != []
    requires Quiet(s.(scratch := s.skipped, skipped := []), 0, |s.skipped|)
    ensures var r := Replay(s.(scratch := s.skipped, skipped := []), 0, |s.skipped|);
      ReAddSkipped(s) == NewLines(r, 0) && r.emitted == s.emitted && s.aligned <= r.aligned &&
      Interleaves(r.aligned[|s.aligned|..], r.skipped, Restamped(s.skipped, s.seqnum))
  {
    var snap := s.(scratch := s.skipped, skipped := []);
    ReplayQuietInOrder(snap, 0, |s.skipped|);
    assert Pending(snap, 0) == s.skipped;
    var r := Replay(snap, 0, |s.skipped|);
    assert r.skipped[0..] == r.skipped;
  }

  /** When no pending entry that passes the threshold ends past the edge, the replay is quiet:
      the edge never moves, so the test that each entry meets stays the same. */
  lemma {:induction false} WithinEdgeQuiet(s: State, idx: nat, k: nat)
    requires idx <= k && |s.scratch| <= k && |s.skipped| <= idx
    requires forall i :: idx <= i < |s.scratch| && Admits(s.maxCol, s.thresh, s.scratch[i].pc.column) ==>
               s.scratch[i].pc.column + s.scratch[i].pc.len <= s.maxCol
    ensures Quiet(s, idx, k)
    decreases k - idx
  {
    if idx < |s.scratch| {
      var ce := s.scratch[idx];
      var next := Add(s, ce.pc, ce.seqnum);
      var j: nat := idx + 1;
      QuietStep(s, ce.pc, ce.seqnum);
      if Admits(s.maxCol, s.thresh, ce.pc.column) {
        AddWithinEdge(s, ce.pc, ce.seqnum);
      } else {
        AddRejected(s, ce.pc, ce.seqnum);
      }
      assert next.maxCol == s.maxCol && next.thresh == s.thresh;
      WithinEdgeQuiet(next, j, k);
    }
  }

  /** The state Flush hands to ReAddSkipped: the group indented and emptied, the edge reset,
      the skipped list pruned against the seqnum of the last flushed entry. */
  function Survivors(s: State): (f: State)
    ensures f.maxCol == 0 && f.aligned == [] && f.seqnum == s.seqnum
    ensures |f.skipped| <= |s.skipped|
  {
    s.(aligned := [], maxCol := 0, emitted := s.emitted + Targets(s.aligned, s.maxCol),
       skipped := Prune(s.skipped, LastSeqnum(s.aligned)))
  }

  /** When the replay after a flush is quiet, the flush re-adds the surviving skipped entries in
      their order, each exactly once, to aligned or back to skipped; the first survivor is always
      admitted, since the edge was reset to 0. */
  lemma FlushReplayInOrder(s: State)
    requires s.skipped != [] && Survivors(s).skipped != []
    requires Quiet(Survivors(s).(scratch := Survivors(s).skipped, skipped := []), 0, |Survivors(s).skipped|)
    ensures var f := Survivors(s);
      var r := Replay(f.(scratch := f.skipped, skipped := []), 0, |f.skipped|);
      Flush(s) == NewLines(r, 0) && r.emitted == f.emitted &&
      Interleaves(r.aligned, r.skipped, Restamped(f.skipped, s.seqnum)) &&
      r.aligned != [] && r.aligned[0] == Restamped(f.skipped, s.seqnum)[0]
  {
    var f := Survivors(s);
    var snap := f.(scratch := f.skipped, skipped := []);
    var k := |f.skipped|;
    FlushReplaysSurvivors(s);
    ReAddQuietInOrder(f);
    var ce := snap.scratch[0];
    var next := Add(snap, ce.pc, ce.seqnum);
    var j: nat := 1;
    assert Replay(snap, 0, k) == Replay(next, j, k);
    QuietStep(snap, ce.pc, ce.seqnum);
    assert next.aligned == [Entry(ce.pc, AssignedSeqnum(snap, ce.seqnum))];
    assert Quiet(next, j, k);
    ReplayQuietInOrder(next, j, k);
    RestampedPending(snap, 0, j);
    assert Pending(snap, 0) == f.skipped;
  }

  // ---------------------------------------------------------------------------
  // End

  /** End leaves both lists empty. It indents only through the Flush it makes when the group is
      non-empty; skipped entries left over are dropped without being indented. */
  lemma EndDiscardsSkipped(s: State)
    ensures End(s).aligned == [] && End(s).skipped == []
    ensures s.aligned == [] ==> End(s) == s.(skipped := [])
    ensures s.aligned != [] ==> End(s) == Flush(s).(aligned := [], skipped := [])
    ensures s.aligned != [] ==> s.emitted + Targets(s.aligned, s.maxCol) <= End(s).emitted
  {
  }

  // ---------------------------------------------------------------------------
  // No chunk is ever invented or duplicated

  lemma {:induction false} AddConserves(s: State, pc: Chunk, seqnum: int)
    ensures Held(Add(s, pc, seqnum)) <= Held(s) + multiset{pc}
    decreases |s.skipped|, 5, 0
  {
    var sq := AssignedSeqnum(s, seqnum);
    var e := Entry(pc, sq);
    if Admits(s.maxCol, s.thresh, pc.column) {
      var nl := if sq > s.nlSeqnum then sq else s.nlSeqnum;
      var admitted := s.(nlSeqnum := nl, aligned := s.aligned + [e]);
      HeldAdmitted(s, e, nl);
      var endcol := pc.column + pc.len;
      if endcol > s.maxCol {
        var widened := admitted.(maxCol := endcol);
        assert Held(widened) == Held(admitted);
        if widened.skipped != [] {
          ReAddConserves(widened);
          assert Add(s, pc, seqnum) == ReAddSkipped(widened);
        } else {
          assert Add(s, pc, seqnum) == widened;
        }
      } else {
        assert Add(s, pc, seqnum) == admitted;
      }
    } else {
      HeldSkipped(s, e);
      assert Add(s, pc, seqnum) == s.(skipped := s.skipped + [e]);
    }
  }

  lemma HeldAdmitted(s: State, e: Entry, nl: int)
    ensures Held(s.(nlSeqnum := nl, aligned := s.aligned + [e])) == Held(s) + multiset{e.pc}
  {
    assert [e][..0] == [];
    ChunksConcat(s.aligned, [e]);
  }

  lemma HeldSkipped(s: State, e: Entry)
    ensures Held(s.(skipped := s.skipped + [e])) == Held(s) + multiset{e.pc}
  {
    assert [e][..0] == [];
    ChunksConcat(s.skipped, [e]);
  }

  /** After the loop's Add, what is left to replay is the rest of the old snapshot, or nothing
      when a nested re-add replaced the snapshot by a shorter one. */
  lemma PendingAfterAdd(s: State, next: State, idx: nat)
    requires idx < |s.scratch|
    requires next.scratch == s.scratch || |next.scratch| <= idx
    ensures Chunks(Pending(next, idx + 1)) <= Chunks(Pending(s, idx + 1))
  {
    if next.scratch != s.scratch {
      assert Pending(next, idx + 1) == [];
    }
  }

  /** r <= a + b, a <= c + d, b <= e and f == d + e give r <= c + f. */
  lemma MultisetStep<T>(r: multiset<T>, a: multiset<T>, b: multiset<T>, c: multiset<T>, d: multiset<T>,
                        e: multiset<T>, f: multiset<T>)
    requires r <= a + b && a <= c + d && b <= e && f == d + e
    ensures r <= c + f
  {
    assert forall x :: r[x] <= a[x] + b[x];
  }

  /** One step of the replay loop: the chunk taken from the snapshot at idx is accounted for
      either in the state after Add or in what remains to be replayed from j == idx + 1. */
  lemma ReplayStepHeld(s: State, idx: nat, j: nat, next: State, r: State)
    requires idx < |s.scratch| && j == idx + 1
    requires next.scratch == s.scratch || |next.scratch| <= idx
    requires Held(next) <= Held(s) + multiset{s.scratch[idx].pc}
    requires Held(r) <= Held(next) + Chunks(Pending(next, j))
    ensures Held(r) <= Held(s) + Chunks(Pending(s, idx))
  {
    PendingStep(s, idx);
    PendingAfterAdd(s, next, idx);
    MultisetStep(Held(r), Held(next), Chunks(Pending(next, j)), Held(s), multiset{s.scratch[idx].pc},
                 Chunks(Pending(s, j)), Chunks(Pending(s, idx)));
  }

  lemma {:induction false} ReplayConserves(s: State, idx: nat, k: nat)
    requires idx <= k && |s.scratch| <= k && |s.skipped| <= idx
    ensures Held(Replay(s, idx, k)) <= Held(s) + Chunks(Pending(s, idx))
    decreases k, 0, k - idx
  {
    if idx < |s.scratch| {
      var ce := s.scratch[idx];
      var next := Add(s, ce.pc, ce.seqnum);
      var j: nat := idx + 1;
      assert Replay(s, idx, k) == Replay(next, j, k);
      AddConserves(s, ce.pc, ce.seqnum);
      ReplayConserves(next, j, k);
      ReplayStepHeld(s, idx, j, next, Replay(next, j, k));
    }
  }

  lemma {:induction false} ReAddConserves(s: State)
    ensures Held(ReAddSkipped(s)) <= Held(s)
    decreases |s.skipped|, if s.maxCol == 0 then 1 else 4, 0
  {
    if s.skipped != [] {
      var snap := s.(scratch := s.skipped, skipped := []);
      assert Pending(snap, 0) == s.skipped;
      ReplayConserves(snap, 0, |s.skipped|);
      NewLinesConserves(Replay(snap, 0, |s.skipped|), 0);
    }
  }

  lemma {:induction false} NewLinesConserves(s: State, cnt: int)
    ensures Held(NewLines(s, cnt)) <= Held(s)
    decreases |s.skipped|, 3, 0
  {
    if s.aligned != [] {
      var counted := s.(seqnum := s.seqnum + cnt);
      if counted.seqnum > counted.nlSeqnum + counted.span {
        FlushConserves(counted);
      }
    }
  }

  lemma {:induction false} FlushConserves(s: State)
    ensures Held(Flush(s)) <= Held(s)
    decreases |s.skipped|, 2, 0
  {
    var flushed := s.(aligned := [], maxCol := 0, emitted := s.emitted + Targets(s.aligned, s.maxCol));
    FlushedHeld(s);
    if s.skipped != [] {
      var last := LastSeqnum(s.aligned);
      PruneChunks(s.skipped, last);
      ReAddConserves(flushed.(skipped := Prune(s.skipped, last)));
    }
  }
}
