/** Preparing a download, surviving a crash, and what the finished file is. */
module Resume {
  import opened Text
  import opened Pieces
  import opened Transfer
  import opened DownloadSafety

  // ---------- The preamble ----------

  /** An existing file is kept and a missing one created; then a zero is put at the last offset. */
  function Preallocated(existing: Option<Bytes>, size: nat): Bytes {
    var base := if existing.Some? then existing.value else [];
    if size == 0 then base else Overlay(base, size - 1, [0], 0)
  }

  method Preallocate(existing: Option<Bytes>, size: nat) returns (file: Bytes)
    ensures file == Preallocated(existing, size)
  {
    file := [];
    if existing.Some? {
      file := existing.value;
    }
    if size > 0 {
      var gap := if |file| < size then size - |file| else 0;
      file := file + seq(gap, _ => 0);
      file := file[size - 1 := 0];
    }
  }

  /** One status for each piece; cells the sidecar does not have stay pending. */
  function Loaded(sidecar: seq<int>, n: nat): (init: seq<int>)
    ensures |init| == n
  {
    seq(n, i requires 0 <= i < n => if i < |sidecar| then sidecar[i] else PENDING)
  }

  method LoadStatus(sidecar: Option<seq<int>>, n: nat) returns (status: seq<int>)
    ensures status == Loaded(if sidecar.Some? then sidecar.value else [], n)
  {
    status := seq(n, _ => PENDING);
    if sidecar.Some? {
      var i := 0;
      while i < n
        invariant 0 <= i <= n == |status|
        invariant forall k :: 0 <= k < n ==>
          status[k] == if k < i && k < |sidecar.value| then sidecar.value[k] else PENDING
      {
        if i < |sidecar.value| {
          status := status[i := sidecar.value[i]];
        }
        i := i + 1;
      }
    }
  }

  function Size(j: Job): nat {
    |j.original|
  }

  /** The piece the preamble damages: the last one, unless the original ends in a zero byte. */
  predicate Spoiled(j: Job, k: nat) {
    j.original != [] && k == |j.hashes| - 1 && j.original[Size(j) - 1] != 0
  }

  /**
   * Every piece the sidecar marks complete, save one the preamble spoils, is on disk with the original's
   * bytes.
   */
  ghost predicate Honest(j: Job, existing: Option<Bytes>, sidecar: seq<int>) {
    forall k :: 0 <= k < |sidecar| && k < |j.hashes| && sidecar[k] == COMPLETED && !Spoiled(j, k) ==>
      existing.Some? && SlotOk(j, existing.value, k)
  }

  /** Of the slots that were right before the preamble, exactly the spoiled one is wrong after it. */
  lemma PreambleKeepsSlots(j: Job, disk: Bytes, k: nat)
    requires ValidJob(j) && SlotOk(j, disk, k)
    ensures SlotOk(j, Preallocated(Some(disk), Size(j)), k) <==> !Spoiled(j, k)
  {
    var file := Preallocated(Some(disk), Size(j));
    var size, a, b := Size(j), Start(k), End(k, Size(j));
    assert |file| == |disk|;
    if k == |j.hashes| - 1 {
      assert b == size;
      assert Slot(j, file, k) == Slot(j, disk, k)[size - 1 - a := 0];
      assert Piece(j.original, k)[size - 1 - a] == j.original[size - 1];
      assert Slot(j, file, k)[size - 1 - a] == 0;
    } else {
      assert b < size;
      assert Slot(j, file, k) == Slot(j, disk, k);
    }
  }

  /** Whatever was on disk before, the slot the preamble spoils is wrong after it. */
  lemma PreambleSpoils(j: Job, existing: Option<Bytes>, k: nat)
    requires ValidJob(j) && Spoiled(j, k)
    ensures !SlotOk(j, Preallocated(existing, Size(j)), k)
  {
    var file, size, a := Preallocated(existing, Size(j)), Size(j), Start(k);
    assert file[size - 1] == 0;
    LastOfSlice(file, a, size);
    LastOfSlice(j.original, a, size);
    assert End(k, size) == size;
    assert Slot(j, file, k) == file[a..size] && Piece(j.original, k) == j.original[a..size];
  }

  lemma LastOfSlice(x: Bytes, a: nat, b: nat)
    requires a < b <= |x|
    ensures x[a..b][b - 1 - a] == x[b - 1]
  {
  }

  /** The shortest case: one byte, not zero, complete on disk before the preamble and wrong after it. */
  lemma OneByteSpoiled(hash: Bytes -> string, fname: string)
    ensures var one: Bytes := [1];
      var j := Job(fname, one, [hash(one)], hash, 1, 1, None);
      ValidJob(j) && SlotOk(j, one, 0) && !SlotOk(j, Preallocated(Some(one), 1), 0)
  {
    var one: Bytes := [1];
    var j := Job(fname, one, [hash(one)], hash, 1, 1, None);
    assert PieceCount(1) == 1 && Piece(one, 0) == one;
    PreambleSpoils(j, Some(one), 0);
  }

  // ---------- Runs ----------

  /** A run of the workers after the preamble, from what an earlier process left on disk. */
  ghost predicate Life(j: Job, existing: Option<Bytes>, sidecar: seq<int>, run: seq<Download>)
    requires j.peers > 0
  {
    WorkersRun(j, Preallocated(existing, Size(j)), Loaded(sidecar, |j.hashes|), sidecar, run)
  }

  lemma BeginInv(j: Job, file: Bytes, sidecar: seq<int>)
    requires ValidJob(j) && |file| >= Size(j)
    ensures DownloadInv(j, file, Loaded(sidecar, |j.hashes|), Begin(j, file, Loaded(sidecar, |j.hashes|), sidecar))
  {
    BeginConserved(j, file, Loaded(sidecar, |j.hashes|), sidecar);
  }

  lemma {:induction false} LifeKeepsInv(j: Job, existing: Option<Bytes>, sidecar: seq<int>,
                                        run: seq<Download>, i: nat)
    requires ValidJob(j) && Life(j, existing, sidecar, run) && i < |run|
    ensures DownloadInv(j, Preallocated(existing, Size(j)), Loaded(sidecar, |j.hashes|), run[i])
  {
    if i == 0 {
      LifeBegins(j, existing, sidecar, run);
    } else {
      LifeKeepsInv(j, existing, sidecar, run, i - 1);
      OneStepOn(j, existing, sidecar, run, i);
    }
  }

  lemma LifeBegins(j: Job, existing: Option<Bytes>, sidecar: seq<int>, run: seq<Download>)
    requires ValidJob(j) && Life(j, existing, sidecar, run)
    ensures DownloadInv(j, Preallocated(existing, Size(j)), Loaded(sidecar, |j.hashes|), run[0])
  {
    BeginInv(j, Preallocated(existing, Size(j)), sidecar);
  }

  lemma OneStepOn(j: Job, existing: Option<Bytes>, sidecar: seq<int>, run: seq<Download>, i: nat)
    requires ValidJob(j) && Life(j, existing, sidecar, run) && 0 < i < |run|
    requires DownloadInv(j, Preallocated(existing, Size(j)), Loaded(sidecar, |j.hashes|), run[i - 1])
    ensures DownloadInv(j, Preallocated(existing, Size(j)), Loaded(sidecar, |j.hashes|), run[i])
  {
    assert StepAt(j, run, i);
    AnyStepKeepsInv(j, Preallocated(existing, Size(j)), Loaded(sidecar, |j.hashes|), run[i - 1], run[i]);
  }

  lemma AnyStepKeepsInv(j: Job, file: Bytes, init: seq<int>, t: Download, t': Download)
    requires DownloadInv(j, file, init, t) && Step(j, t, t')
    ensures DownloadInv(j, file, init, t')
  {
    var w: nat, e :| Can(j, t, w, e) && t' == Do(j, t, w, e);
    StepKeepsInv(j, file, init, t, w, e);
  }

  /** The run begins with exactly the pieces to fetch that the sidecar does not mark complete, in order. */
  lemma StartsWithTheRest(j: Job, existing: Option<Bytes>, sidecar: seq<int>, run: seq<Download>, p: nat)
    requires ValidJob(j) && Life(j, existing, sidecar, run) && p < |j.hashes|
    ensures p in run[0].queue <==> !(p < |sidecar| && sidecar[p] == COMPLETED)
    ensures forall a, b :: 0 <= a < b < |run[0].queue| ==> run[0].queue[a] < run[0].queue[b]
  {
    PendingAscends(Loaded(sidecar, |j.hashes|), |j.hashes|);
  }

  lemma {:induction false} PendingAscends(init: seq<int>, n: nat)
    requires n <= |init|
    ensures forall a, b :: 0 <= a < b < |Pending(init, n)| ==> Pending(init, n)[a] < Pending(init, n)[b]
  {
    if n > 0 {
      PendingAscends(init, n - 1);
      var front := Pending(init, n - 1);
      assert forall a :: 0 <= a < |front| ==> front[a] in front;
    }
  }

  /** A piece the sidecar marked complete is never fetched again, and no other is passed over. */
  lemma RestoredNotFetched(j: Job, existing: Option<Bytes>, sidecar: seq<int>, run: seq<Download>, i: nat, p: nat)
    requires ValidJob(j) && Life(j, existing, sidecar, run) && i < |run|
    requires p < |j.hashes| && p < |sidecar| && sidecar[p] == COMPLETED
    ensures p !in run[i].queue && !Holds(run[i].workers, p)
    ensures p < |run[i].local| && run[i].local[p] == COMPLETED
  {
    OnePlaceEach(j, existing, sidecar, run, i, p);
  }

  /** The pieces are handed out in ascending order. */
  lemma {:induction false} HandedOutInOrder(j: Job, existing: Option<Bytes>, sidecar: seq<int>, run: seq<Download>,
                                            i: nat)
    requires ValidJob(j) && Life(j, existing, sidecar, run) && i < |run|
    ensures forall a, b :: 0 <= a < b < |run[i].queue| ==> run[i].queue[a] < run[i].queue[b]
  {
    if i == 0 {
      PendingAscends(Loaded(sidecar, |j.hashes|), |j.hashes|);
    } else {
      HandedOutInOrder(j, existing, sidecar, run, i - 1);
      assert StepAt(j, run, i);
      QueueShrinks(j, run[i - 1], run[i]);
    }
  }

  lemma QueueShrinks(j: Job, t: Download, t': Download)
    requires j.peers > 0 && Step(j, t, t')
    ensures t'.queue == t.queue || (t.queue != [] && t'.queue == t.queue[1..])
  {
  }

  /** A worker whose save has gone undisturbed so far has the statuses in the sidecar and its buffer. */
  predicate CleanSave(t: Download, pc: Pc) {
    && pc.Saving? && pc.base + |pc.buffer| <= |t.local|
    && t.sidecar == t.local[..pc.base] && pc.buffer == t.local[pc.base..pc.base + |pc.buffer|]
  }

  /** A save that nobody disturbs, from opening the sidecar to closing it, leaves exactly the statuses there. */
  lemma CleanSaveStep(j: Job, t: Download, w: nat, e: Event)
    requires j.peers > 0 && Can(j, t, w, e)
    requires e.OpenSave? || ((e.ReadCell? || e.Flush? || e.CloseSave?) && CleanSave(t, t.workers[w]))
    ensures var t' := Do(j, t, w, e);
      t'.local == t.local && if e.CloseSave? then t'.sidecar == t.local else CleanSave(t', t'.workers[w])
  {
    var pc := t.workers[w];
    if !e.OpenSave? {
      assert t.local[..pc.base] + t.local[pc.base..pc.base + |pc.buffer|] == t.local[..pc.base + |pc.buffer|];
    }
    if e.CloseSave? {
      assert t.local[..|t.local|] == t.local;
    }
  }

  /** At every step each piece is restored, queued, in one worker's hand, or finished: one of these only. */
  lemma OnePlaceEach(j: Job, existing: Option<Bytes>, sidecar: seq<int>, run: seq<Download>, i: nat, p: nat)
    requires ValidJob(j) && Life(j, existing, sidecar, run) && i < |run| && p < |j.hashes|
    ensures var t, init := run[i], Loaded(sidecar, |j.hashes|);
      && |t.local| == |t.shared| == |init|
      && !(p in t.queue && Holds(t.workers, p))
      && (init[p] == COMPLETED ==> p !in t.queue && !Holds(t.workers, p))
      && (p !in t.queue && !Holds(t.workers, p) ==> Finished(j, init, t, p))
      && (forall v, w :: 0 <= v < w < |t.workers| && Held(t.workers[v]) == Some(p) ==> Held(t.workers[w]) != Some(p))
      && t.completed == CountDone(t.shared) - CountDone(init)
  {
    LifeKeepsInv(j, existing, sidecar, run, i);
    var t, init := run[i], Loaded(sidecar, |j.hashes|);
    if p in t.queue {
      var a :| 0 <= a < |t.queue| && t.queue[a] == p;
    }
    if Holds(t.workers, p) {
      var v :| 0 <= v < |t.workers| && Held(t.workers[v]) == Some(p);
      HolderFacts(j, init, t, v);
    }
  }

  /** Two workers of a run never write overlapping bytes. */
  lemma WritersDisjoint(j: Job, existing: Option<Bytes>, sidecar: seq<int>, run: seq<Download>, i: nat,
                        v: nat, w: nat)
    requires ValidJob(j) && Life(j, existing, sidecar, run) && i < |run|
    requires v < w < |run[i].workers| && run[i].workers[v].Writing? && run[i].workers[w].Writing?
    ensures var a, b := run[i].workers[v], run[i].workers[w];
      Start(a.i) + |a.payload| <= Start(b.i) || Start(b.i) + |b.payload| <= Start(a.i)
  {
    LifeKeepsInv(j, existing, sidecar, run, i);
    WritersApart(j, Preallocated(existing, Size(j)), Loaded(sidecar, |j.hashes|), run[i], v, w);
  }

  lemma WritersApart(j: Job, file0: Bytes, init: seq<int>, t: Download, v: nat, w: nat)
    requires DownloadInv(j, file0, init, t)
    requires v < w < |t.workers| && t.workers[v].Writing? && t.workers[w].Writing?
    ensures var a, b := t.workers[v], t.workers[w];
      Start(a.i) + |a.payload| <= Start(b.i) || Start(b.i) + |b.payload| <= Start(a.i)
  {
    var a, b := t.workers[v], t.workers[w];
    assert WriterOk(j, t, a) && WriterOk(j, t, b);
    assert Held(a) != Held(b);
    SlotsApart(j, a.i, b.i);
    SlotsApart(j, b.i, a.i);
  }

  lemma SlotsApart(j: Job, i: nat, k: nat)
    ensures |Piece(j.original, i)| <= PIECE_SIZE
    ensures i < k ==> Start(i) + |Piece(j.original, i)| <= Start(k)
  {
    if i < k {
      assert (i + 1) * PIECE_SIZE <= k * PIECE_SIZE;
    }
  }

  /** A piece with local status 2 has the right bytes, but for the same exception. */
  lemma CompletedSlot(j: Job, existing: Option<Bytes>, sidecar: seq<int>, t: Download, k: nat)
    requires DownloadInv(j, Preallocated(existing, Size(j)), Loaded(sidecar, |j.hashes|), t)
    requires Honest(j, existing, sidecar)
    requires k < |j.hashes| && t.local[k] == COMPLETED
    ensures SlotOk(j, t.file, k) <==> !(Loaded(sidecar, |j.hashes|)[k] == COMPLETED && Spoiled(j, k))
  {
    var file0, init := Preallocated(existing, Size(j)), Loaded(sidecar, |j.hashes|);
    if init[k] == COMPLETED {
      assert Slot(j, t.file, k) == Slot(j, file0, k);
      if Spoiled(j, k) {
        PreambleSpoils(j, existing, k);
      } else {
        PreambleKeepsSlots(j, existing.value, k);
      }
    } else {
      LocalDoneShared(j, init, t, k);
      assert SlotOk(j, t.file, k);
    }
  }

  lemma LocalDoneShared(j: Job, init: seq<int>, t: Download, k: nat)
    requires Conserved(j, init, t) && k < |init| && t.local[k] == COMPLETED && init[k] != COMPLETED
    ensures t.shared[k] == COMPLETED
  {
    if k in t.queue {
    } else if Holds(t.workers, k) {
      var v :| 0 <= v < |t.workers| && Held(t.workers[v]) == Some(k);
      HolderFacts(j, init, t, v);
    } else {
      assert Finished(j, init, t, k);
    }
  }

  // ---------- The end of a run ----------

  /** When every worker has stopped, every status is 2 or 3 and both vectors agree; 3 needs an unreliable swarm. */
  lemma Joined(j: Job, init: seq<int>, t: Download, p: nat)
    requires ValidJob(j) && Conserved(j, init, t) && AllDone(t) && p < |init|
    ensures t.local[p] == t.shared[p]
    ensures t.local[p] == COMPLETED || (t.local[p] == FAILED && init[p] != COMPLETED && j.reliable.None?)
  {
    assert t.workers[0].Done?;
    assert t.queue == [];
    assert !Holds(t.workers, p);
    assert Finished(j, init, t, p);
  }

  /** Every piece is complete and the file hashes to what the tracker said. */
  predicate GateOpens(status: seq<int>, fileHash: string, fullHash: string) {
    (forall i :: 0 <= i < |status| ==> status[i] == COMPLETED) && fileHash == fullHash
  }

  /** The gate before a file is announced. */
  method FinalGate(status: seq<int>, fileHash: string, fullHash: string) returns (announced: bool)
    ensures announced <==> GateOpens(status, fileHash, fullHash)
  {
    var allCompleted := true;
    var i := 0;
    while i < |status|
      invariant 0 <= i <= |status|
      invariant allCompleted <==> forall k :: 0 <= k < i ==> status[k] == COMPLETED
    {
      if status[i] != COMPLETED {
        allCompleted := false;
        return false;
      }
      i := i + 1;
    }
    announced := fileHash == fullHash;
  }

  /** A file is announced only with every piece complete, and, but for a colliding digest, only if it is right. */
  lemma AnnouncedIsWhole(j: Job, t: Download)
    requires GateOpens(t.shared, j.hash(t.file), j.hash(j.original))
    requires j.hash(t.file) == j.hash(j.original) ==> t.file == j.original
    ensures t.file == j.original && forall p :: 0 <= p < |t.shared| ==> t.shared[p] == COMPLETED
  {
  }

  predicate AllCompleted(t: Download) {
    forall p :: 0 <= p < |t.shared| ==> t.shared[p] == COMPLETED
  }

  lemma ReliableCompletes(j: Job, init: seq<int>, t: Download)
    requires ValidJob(j) && j.reliable.Some? && Conserved(j, init, t) && AllDone(t)
    ensures AllCompleted(t) && |t.local| == |t.shared|
    ensures forall p :: 0 <= p < |t.local| ==> t.local[p] == COMPLETED
  {
    forall p | 0 <= p < |init| ensures t.local[p] == t.shared[p] == COMPLETED {
      Joined(j, init, t, p);
    }
  }

  predicate Fitting(existing: Option<Bytes>, size: nat) {
    existing.Some? ==> |existing.value| <= size
  }

  /** The sidecar marks the last piece complete, and the preamble clears its last byte. */
  predicate TakesOverSpoiled(j: Job, sidecar: seq<int>) {
    0 < |j.hashes| <= |sidecar| && sidecar[|j.hashes| - 1] == COMPLETED && Spoiled(j, |j.hashes| - 1)
  }

  /** When nothing is left at status other than 2, what was there before decides whether the file is right. */
  lemma CompletedFile(j: Job, existing: Option<Bytes>, sidecar: seq<int>, t: Download)
    requires DownloadInv(j, Preallocated(existing, Size(j)), Loaded(sidecar, |j.hashes|), t)
    requires Honest(j, existing, sidecar)
    requires forall p :: 0 <= p < |t.local| ==> t.local[p] == COMPLETED
    ensures t.file == j.original <==> Fitting(existing, Size(j)) && !TakesOverSpoiled(j, sidecar)
  {
    if t.file == j.original {
      LastIsRight(j, existing, sidecar, t);
    } else if Fitting(existing, Size(j)) && !TakesOverSpoiled(j, sidecar) {
      RestIsRight(j, existing, sidecar, t);
    }
  }

  lemma LastIsRight(j: Job, existing: Option<Bytes>, sidecar: seq<int>, t: Download)
    requires DownloadInv(j, Preallocated(existing, Size(j)), Loaded(sidecar, |j.hashes|), t)
    requires Honest(j, existing, sidecar)
    requires forall p :: 0 <= p < |t.local| ==> t.local[p] == COMPLETED
    requires t.file == j.original
    ensures Fitting(existing, Size(j)) && !TakesOverSpoiled(j, sidecar)
  {
    OriginalSlot(j, |j.hashes| - 1);
    CompletedSlot(j, existing, sidecar, t, |j.hashes| - 1);
  }

  lemma OriginalSlot(j: Job, k: nat)
    requires k < PieceCount(|j.original|)
    ensures SlotOk(j, j.original, k)
  {
    SlotInside(|j.original|, k);
  }

  lemma RestIsRight(j: Job, existing: Option<Bytes>, sidecar: seq<int>, t: Download)
    requires DownloadInv(j, Preallocated(existing, Size(j)), Loaded(sidecar, |j.hashes|), t)
    requires Honest(j, existing, sidecar)
    requires forall p :: 0 <= p < |t.local| ==> t.local[p] == COMPLETED
    requires Fitting(existing, Size(j)) && !TakesOverSpoiled(j, sidecar)
    ensures t.file == j.original
  {
    forall p | 0 <= p < |j.hashes| ensures SlotOk(j, t.file, p) {
      CompletedSlot(j, existing, sidecar, t, p);
    }
    WholeFile(j, t.file);
  }

  lemma WholeFile(j: Job, file: Bytes)
    requires ValidJob(j) && |file| == Size(j) && forall p :: 0 <= p < |j.hashes| ==> SlotOk(j, file, p)
    ensures file == j.original
  {
    AllSlotsOk(j, file, |j.hashes|);
    assert file[..Size(j)] == file;
    assert j.original[..Size(j)] == j.original;
  }

  /** With one reliable peer listed, whatever the others and the scheduler do, every piece is fetched. */
  lemma ReliableRunEnds(j: Job, existing: Option<Bytes>, sidecar: seq<int>, run: seq<Download>)
    requires ValidJob(j) && j.reliable.Some? && Life(j, existing, sidecar, run)
    requires Honest(j, existing, sidecar)
    requires AllDone(run[|run| - 1])
    ensures AllCompleted(run[|run| - 1])
    ensures run[|run| - 1].file == j.original <==>
            Fitting(existing, Size(j)) && !TakesOverSpoiled(j, sidecar)
  {
    LifeKeepsInv(j, existing, sidecar, run, |run| - 1);
    ReliableCompletes(j, Loaded(sidecar, |j.hashes|), run[|run| - 1]);
    CompletedFile(j, existing, sidecar, run[|run| - 1]);
  }

  // ---------- One attempt after another ----------

  /** One process's attempt at the file: whom it could ask, what it found on disk, and how far it got. */
  datatype Attempt = Attempt(job: Job, existing: Option<Bytes>, sidecar: seq<int>, run: seq<Download>)

  function Last(a: Attempt): Download
    requires a.run != []
  {
    a.run[|a.run| - 1]
  }

  predicate SameFile(j: Job, k: Job) {
    j.original == k.original && j.hashes == k.hashes
  }

  /**
   * What an attempt that stopped at `t` leaves to the next one: the output file, and the sidecar as it
   * was, or removed, or partly or wholly rewritten by the save that follows the join.
   */
  predicate Leaves(t: Download, existing: Option<Bytes>, sidecar: seq<int>) {
    && existing == Some(t.file)
    && (sidecar == t.sidecar || sidecar == [] || (AllDone(t) && sidecar <= t.local))
  }

  ghost predicate Lived(a: Attempt) {
    ValidJob(a.job) && Life(a.job, a.existing, a.sidecar, a.run)
  }

  ghost predicate NextAttempt(a: Attempt, b: Attempt) {
    a.run != [] && SameFile(a.job, b.job) && Leaves(Last(a), b.existing, b.sidecar)
  }

  /**
   * Attempts at one file, each possibly with other peers and each stopped anywhere, by a crash or by its
   * end. The first finds whatever file it finds at the output path, and no sidecar.
   */
  ghost predicate Attempts(xs: seq<Attempt>) {
    && xs != [] && xs[0].sidecar == []
    && (forall i: nat | i < |xs| :: LivedAt(xs, i))
    && (forall i: nat | i + 1 < |xs| :: Follows(xs, i))
  }

  ghost predicate LivedAt(xs: seq<Attempt>, i: nat)
    requires i < |xs|
  {
    Lived(xs[i])
  }

  ghost predicate Follows(xs: seq<Attempt>, i: nat)
    requires i + 1 < |xs|
  {
    NextAttempt(xs[i], xs[i + 1])
  }

  /** A status 2 that was earned by the end of an attempt stands for right bytes. */
  lemma EarnedSlot(a: Attempt, n: nat, k: nat)
    requires Lived(a) && Honest(a.job, a.existing, a.sidecar) && n < |a.run|
    requires k < |a.job.hashes| && k < |a.run[n].local|
    requires a.run[n].local[k] == COMPLETED || (k < |a.run[n].sidecar| && a.run[n].sidecar[k] == COMPLETED)
    ensures a.run[n].local[k] == COMPLETED
    ensures SlotOk(a.job, a.run[n].file, k) <==>
            !(Loaded(a.sidecar, |a.job.hashes|)[k] == COMPLETED && Spoiled(a.job, k))
  {
    LifeKeepsInv(a.job, a.existing, a.sidecar, a.run, n);
    CompletedSlot(a.job, a.existing, a.sidecar, a.run[n], k);
  }

  lemma EveryStatus(a: Attempt, n: nat)
    requires Lived(a) && n < |a.run|
    ensures |a.run[n].local| == |a.job.hashes|
    ensures |a.run[n].file| == |Preallocated(a.existing, Size(a.job))|
  {
    LifeKeepsInv(a.job, a.existing, a.sidecar, a.run, n);
  }

  lemma LeavesHonest(a: Attempt, b: Attempt)
    requires Lived(a) && Honest(a.job, a.existing, a.sidecar) && SameFile(a.job, b.job)
    requires a.run != [] && Leaves(Last(a), b.existing, b.sidecar)
    ensures Honest(b.job, b.existing, b.sidecar)
  {
    EveryStatus(a, |a.run| - 1);
    forall k | 0 <= k < |b.sidecar| && k < |b.job.hashes| && b.sidecar[k] == COMPLETED && !Spoiled(b.job, k)
      ensures SlotOk(b.job, b.existing.value, k)
    {
      EarnedSlot(a, |a.run| - 1, k);
      SameSlot(a.job, b.job, Last(a).file, k);
    }
  }

  lemma SameSlot(j: Job, j': Job, file: Bytes, k: nat)
    requires SameFile(j, j')
    ensures SlotOk(j, file, k) <==> SlotOk(j', file, k)
    ensures Spoiled(j, k) <==> Spoiled(j', k)
  {
  }

  /** However often the download was interrupted, the sidecar an attempt finds is honest. */
  lemma {:induction false} AlwaysHonest(xs: seq<Attempt>, i: nat)
    requires Attempts(xs) && i < |xs|
    ensures Honest(xs[i].job, xs[i].existing, xs[i].sidecar)
  {
    if i > 0 {
      AlwaysHonest(xs, i - 1);
      assert LivedAt(xs, i - 1) && Follows(xs, i - 1);
      LeavesHonest(xs[i - 1], xs[i]);
    }
  }

  /**
   * Crash safety: in whichever attempt and at whichever step the process dies, each piece the sidecar
   * then marks complete is on disk with the right bytes, except exactly the one whose last byte the
   * preamble of this attempt cleared and which this attempt took over as complete.
   */
  lemma CrashSafe(xs: seq<Attempt>, i: nat, n: nat, k: nat)
    requires Attempts(xs) && i < |xs| && n < |xs[i].run|
    requires k < |xs[i].job.hashes| && k < |xs[i].run[n].sidecar| && xs[i].run[n].sidecar[k] == COMPLETED
    ensures var x := xs[i];
      SlotOk(x.job, x.run[n].file, k) <==>
        !(Loaded(x.sidecar, |x.job.hashes|)[k] == COMPLETED && Spoiled(x.job, k))
  {
    AlwaysHonest(xs, i);
    assert LivedAt(xs, i);
    EveryStatus(xs[i], n);
    EarnedSlot(xs[i], n, k);
  }

  /** The output file never shrinks, and grows no further than the file's size. */
  lemma {:induction false} LengthKept(xs: seq<Attempt>, i: nat)
    requires Attempts(xs) && i < |xs|
    ensures Fitting(xs[i].existing, Size(xs[i].job)) <==> Fitting(xs[0].existing, Size(xs[0].job))
    ensures SameFile(xs[0].job, xs[i].job)
  {
    if i > 0 {
      LengthKept(xs, i - 1);
      assert LivedAt(xs, i - 1) && Follows(xs, i - 1);
      EveryStatus(xs[i - 1], |xs[i - 1].run| - 1);
    }
  }

  /**
   * However many attempts were interrupted before, one that ends and had a reliable peer has fetched
   * every piece; its file is the original exactly when nothing longer was there at the very beginning
   * and it did not take over a spoiled piece as complete.
   */
  lemma AttemptsEnd(xs: seq<Attempt>, i: nat)
    requires Attempts(xs) && i < |xs| && xs[i].job.reliable.Some?
    requires xs[i].run != [] && AllDone(Last(xs[i]))
    ensures AllCompleted(Last(xs[i]))
    ensures Last(xs[i]).file == xs[i].job.original <==>
            Fitting(xs[0].existing, Size(xs[0].job)) && !TakesOverSpoiled(xs[i].job, xs[i].sidecar)
  {
    AlwaysHonest(xs, i);
    LengthKept(xs, i);
    assert LivedAt(xs, i);
    ReliableRunEnds(xs[i].job, xs[i].existing, xs[i].sidecar, xs[i].run);
  }

  /** End to end: on a fresh output path the finished file is the original, byte for byte. */
  lemma EndToEnd(j: Job, run: seq<Download>)
    requires ValidJob(j) && j.reliable.Some? && Life(j, None, [], run) && AllDone(run[|run| - 1])
    ensures var t := run[|run| - 1];
      t.file == j.original && AllCompleted(t) && GateOpens(t.shared, j.hash(t.file), j.hash(j.original))
  {
    ReliableRunEnds(j, None, [], run);
  }
}
