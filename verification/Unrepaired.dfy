/** What becomes of a last piece that an attempt takes over as complete although the preamble spoils it. */
module Unrepaired {
  import opened Text
  import opened Pieces
  import opened Transfer
  import opened DownloadSafety
  import opened Resume

  /** A buffer that covers the last cell holds status 2 there. */
  predicate BufferMarks(last: nat, pc: Pc) {
    pc.Saving? && pc.base <= last < pc.base + |pc.buffer| ==> pc.buffer[last - pc.base] == COMPLETED
  }

  /** The last piece is complete for every worker and for every save, begun or done. */
  predicate Marked(j: Job, t: Download) {
    && 0 < |j.hashes| == |t.local|
    && var last := |j.hashes| - 1;
      && t.local[last] == COMPLETED
      && (last < |t.sidecar| ==> t.sidecar[last] == COMPLETED)
      && forall w :: 0 <= w < |t.workers| ==> BufferMarks(last, t.workers[w])
  }

  lemma BeginMarked(j: Job, existing: Option<Bytes>, sidecar: seq<int>)
    requires j.hashes != [] && TakesOverSpoiled(j, sidecar)
    ensures Marked(j, Begin(j, Preallocated(existing, Size(j)), Loaded(sidecar, |j.hashes|), sidecar))
  {
  }

  lemma FlushMarked(cells: seq<int>, base: nat, buffer: seq<int>, last: nat)
    requires base + |buffer| <= last + 1 && buffer != []
    requires last < |cells| ==> cells[last] == COMPLETED
    requires base <= last < base + |buffer| ==> buffer[last - base] == COMPLETED
    ensures var r := Overlay(cells, base, buffer, PENDING); last < |r| ==> r[last] == COMPLETED
  {
  }

  lemma StepKeepsMarked(j: Job, init: seq<int>, t: Download, w: nat, e: Event)
    requires j.peers > 0 && Conserved(j, init, t) && SidecarOk(t) && Can(j, t, w, e) && Marked(j, t)
    ensures Marked(j, Do(j, t, w, e))
  {
    var t', last := Do(j, t, w, e), |j.hashes| - 1;
    StepKeepsDone(j, init, t, w, e);
    SidecarKeepsMark(j, init, t, w, e);
    forall v | 0 <= v < |t'.workers| ensures BufferMarks(last, t'.workers[v]) {
      assert BufferMarks(last, t.workers[v]);
    }
  }

  lemma SidecarKeepsMark(j: Job, init: seq<int>, t: Download, w: nat, e: Event)
    requires j.peers > 0 && Conserved(j, init, t) && SidecarOk(t) && Can(j, t, w, e) && Marked(j, t)
    ensures var t', last := Do(j, t, w, e), |j.hashes| - 1;
      last < |t'.sidecar| ==> t'.sidecar[last] == COMPLETED
  {
    var pc, last := t.workers[w], |j.hashes| - 1;
    assert SaverOk(t, pc) && BufferMarks(last, pc);
    if pc.Saving? && pc.buffer != [] && (e.Flush? || e.CloseSave?) {
      FlushMarked(t.sidecar, pc.base, pc.buffer, last);
    }
  }

  lemma {:induction false} LifeKeepsMarked(j: Job, existing: Option<Bytes>, sidecar: seq<int>, run: seq<Download>,
                                           n: nat)
    requires ValidJob(j) && Life(j, existing, sidecar, run) && n < |run| && TakesOverSpoiled(j, sidecar)
    ensures Marked(j, run[n])
  {
    if n == 0 {
      BeginMarked(j, existing, sidecar);
    } else {
      LifeKeepsMarked(j, existing, sidecar, run, n - 1);
      OneMoreStep(j, existing, sidecar, run, n);
    }
  }

  lemma OneMoreStep(j: Job, existing: Option<Bytes>, sidecar: seq<int>, run: seq<Download>, n: nat)
    requires ValidJob(j) && Life(j, existing, sidecar, run) && 0 < n < |run| && Marked(j, run[n - 1])
    ensures Marked(j, run[n])
  {
    LifeKeepsInv(j, existing, sidecar, run, n - 1);
    assert StepAt(j, run, n);
    AnyStepKeepsMarked(j, Loaded(sidecar, |j.hashes|), run[n - 1], run[n]);
  }

  lemma AnyStepKeepsMarked(j: Job, init: seq<int>, t: Download, t': Download)
    requires j.peers > 0 && Conserved(j, init, t) && SidecarOk(t) && Step(j, t, t') && Marked(j, t)
    ensures Marked(j, t')
  {
    var w: nat, e :| Can(j, t, w, e) && t' == Do(j, t, w, e);
    StepKeepsMarked(j, init, t, w, e);
  }

  /** An attempt that takes over a spoiled piece never has the original, and never fetches that piece. */
  lemma NeverRight(a: Attempt, n: nat)
    requires Lived(a) && TakesOverSpoiled(a.job, a.sidecar) && n < |a.run|
    ensures a.run[n].file != a.job.original
    ensures var last := |a.job.hashes| - 1; last !in a.run[n].queue && !Holds(a.run[n].workers, last)
  {
    var j, last := a.job, |a.job.hashes| - 1;
    NotFetched(a, n);
    SpoiledSlot(a, n);
    assert Slot(j, j.original, last) == Piece(j.original, last);
  }

  lemma NotFetched(a: Attempt, n: nat)
    requires Lived(a) && TakesOverSpoiled(a.job, a.sidecar) && n < |a.run|
    ensures var last := |a.job.hashes| - 1; last !in a.run[n].queue && !Holds(a.run[n].workers, last)
  {
    OnePlaceEach(a.job, a.existing, a.sidecar, a.run, n, |a.job.hashes| - 1);
  }

  lemma SpoiledSlot(a: Attempt, n: nat)
    requires Lived(a) && TakesOverSpoiled(a.job, a.sidecar) && n < |a.run|
    ensures !SlotOk(a.job, a.run[n].file, |a.job.hashes| - 1)
  {
    var j, last := a.job, |a.job.hashes| - 1;
    LifeKeepsInv(j, a.existing, a.sidecar, a.run, n);
    PreambleSpoils(j, a.existing, last);
    assert Loaded(a.sidecar, |j.hashes|)[last] == COMPLETED;
    assert Slot(j, a.run[n].file, last) == Slot(j, Preallocated(a.existing, Size(j)), last);
  }

  /** If the sidecar it leaves is not cut short, the next attempt takes the piece over again. */
  lemma TakenOverAgain(a: Attempt, b: Attempt)
    requires Lived(a) && NextAttempt(a, b) && TakesOverSpoiled(a.job, a.sidecar)
    requires |b.sidecar| >= |b.job.hashes|
    ensures TakesOverSpoiled(b.job, b.sidecar)
  {
    LifeKeepsMarked(a.job, a.existing, a.sidecar, a.run, |a.run| - 1);
  }

  /** No attempt after i found a sidecar too short to say anything of the last piece. */
  predicate SidecarSurvives(xs: seq<Attempt>, i: nat, m: nat)
    requires i <= m < |xs|
  {
    forall k :: i < k <= m ==> |xs[k].sidecar| >= |xs[k].job.hashes|
  }

  lemma {:induction false} StillTakenOver(xs: seq<Attempt>, i: nat, m: nat)
    requires Attempts(xs) && i <= m < |xs| && SidecarSurvives(xs, i, m)
    requires TakesOverSpoiled(xs[i].job, xs[i].sidecar)
    ensures TakesOverSpoiled(xs[m].job, xs[m].sidecar)
  {
    if i < m {
      StillTakenOver(xs, i, m - 1);
      OnceMore(xs, m - 1);
    }
  }

  lemma OnceMore(xs: seq<Attempt>, m: nat)
    requires Attempts(xs) && m + 1 < |xs| && TakesOverSpoiled(xs[m].job, xs[m].sidecar)
    requires |xs[m + 1].sidecar| >= |xs[m + 1].job.hashes|
    ensures TakesOverSpoiled(xs[m + 1].job, xs[m + 1].sidecar)
  {
    assert LivedAt(xs, m) && Follows(xs, m);
    TakenOverAgain(xs[m], xs[m + 1]);
  }

  /**
   * Once an attempt has taken over a spoiled last piece, and as long as the sidecar is not cut short or
   * removed, no later attempt ever repairs it: at no moment is the file the original, and the gate stays
   * shut unless the wrong file happens to have the right hash.
   */
  lemma NeverRepaired(xs: seq<Attempt>, i: nat, m: nat, n: nat)
    requires Attempts(xs) && i <= m < |xs| && SidecarSurvives(xs, i, m) && n < |xs[m].run|
    requires TakesOverSpoiled(xs[i].job, xs[i].sidecar)
    ensures xs[m].run[n].file != xs[m].job.original
    ensures var x, t := xs[m], xs[m].run[n];
      GateOpens(t.shared, x.job.hash(t.file), x.job.hash(x.job.original)) ==>
        t.file != x.job.original && x.job.hash(t.file) == x.job.hash(x.job.original)
  {
    StillTakenOver(xs, i, m);
    assert LivedAt(xs, m);
    NeverRight(xs[m], n);
  }
}
