/** How often each listed peer was tried for a piece that was given up. */
module Tries {
  import opened Text
  import opened Pieces
  import opened Transfer
  import opened DownloadSafety
  import opened Resume
  import Retry

  /** In the step from `t` to `t'` worker `w` tries some peer for piece `p`. */
  predicate TriesOne(j: Job, t: Download, t': Download, w: nat, p: nat) {
    && w < |t.workers| == |t'.workers| && t.workers[w].Trying?
    && t.workers[w].i == p && t.workers[w].k < j.peers && t'.workers[w] != t.workers[w]
  }

  /** It is the peer at place `k` of its rotation. */
  predicate TriesPlace(j: Job, t: Download, t': Download, w: nat, p: nat, k: nat) {
    TriesOne(j, t, t', w, p) && t.workers[w].k == k
  }

  /** How often that happened in the first `n` steps. */
  function TriedAt(j: Job, run: seq<Download>, n: nat, w: nat, p: nat, k: nat): nat
    requires n < |run|
  {
    if n == 0 then 0
    else TriedAt(j, run, n - 1, w, p, k) + if TriesPlace(j, run[n - 1], run[n], w, p, k) then 1 else 0
  }

  /** Worker `w` tried each place `c` times for the piece, and the first `k` places once more. */
  predicate Even(j: Job, run: seq<Download>, n: nat, w: nat, p: nat, c: nat, k: nat)
    requires n < |run|
  {
    forall m: nat | m < j.peers :: TriedAt(j, run, n, w, p, m) == c + if m < k then 1 else 0
  }

  /** The step from `t` to `t'` is one of `w` for piece `p` that ended in a wrong hash or a failed write. */
  ghost predicate GoesBad(j: Job, t: Download, t': Download, w: nat, p: nat)
    requires j.peers > 0
  {
    && w < |t.workers| && Held(t.workers[w]) == Some(p)
    && exists e: Event :: (e.Reject? || e.WriteFails?) && Can(j, t, w, e) && t' == Do(j, t, w, e)
  }

  /** How many steps went bad among the first `n`. */
  ghost function Bad(j: Job, run: seq<Download>, n: nat, w: nat, p: nat): nat
    requires n < |run| && j.peers > 0
  {
    if n == 0 then 0
    else Bad(j, run, n - 1, w, p) + if GoesBad(j, run[n - 1], run[n], w, p) then 1 else 0
  }

  ghost predicate Fresh(j: Job, run: seq<Download>, n: nat, w: nat, p: nat)
    requires n < |run| && j.peers > 0
  {
    Even(j, run, n, w, p, 0, 0) && Bad(j, run, n, w, p) == 0
  }

  /** At some moment `c` passes were complete, and together with what had gone bad they were fewer than five. */
  ghost predicate Began(j: Job, run: seq<Download>, n: nat, w: nat, p: nat, c: nat)
    requires n < |run| && j.peers > 0
  {
    exists m: nat :: m <= n && Even(j, run, m, w, p, c, 0) && c + Bad(j, run, m, w, p) < MAX_RETRIES
  }

  /** Passes and what went bad add up to `a` attempts, and `k` places of the next pass have been tried. */
  ghost predicate Spent(j: Job, run: seq<Download>, n: nat, w: nat, p: nat, a: nat, k: nat)
    requires n < |run| && j.peers > 0
  {
    exists c: nat :: SpentBy(j, run, n, w, p, c, a, k)
  }

  ghost predicate SpentBy(j: Job, run: seq<Download>, n: nat, w: nat, p: nat, c: nat, a: nat, k: nat)
    requires n < |run| && j.peers > 0
  {
    Even(j, run, n, w, p, c, k) && c + Bad(j, run, n, w, p) == a && Began(j, run, n, w, p, c)
  }

  /**
   * `c` passes tried every place equally often. With what went bad they used up the five attempts, and
   * before the last of them they had not.
   */
  ghost predicate GaveUpAfter(j: Job, run: seq<Download>, n: nat, w: nat, p: nat, c: nat)
    requires n < |run| && j.peers > 0
  {
    && c >= 1 && Even(j, run, n, w, p, c, 0)
    && c + Bad(j, run, n, w, p) >= MAX_RETRIES && Began(j, run, n, w, p, c - 1)
  }

  ghost predicate GaveUp(j: Job, run: seq<Download>, n: nat, w: nat, p: nat)
    requires n < |run| && j.peers > 0
  {
    exists c: nat :: GaveUpAfter(j, run, n, w, p, c)
  }

  /** What the holder of a piece has tried, by its program point. */
  ghost predicate HolderTried(j: Job, run: seq<Download>, n: nat, w: nat, p: nat, pc: Pc)
    requires n < |run| && j.peers > 0
  {
    match pc
    case Trying(_, a, k) => k <= j.peers && Spent(j, run, n, w, p, a, k)
    case Writing(_, a, k, _, _) => k < j.peers && Spent(j, run, n, w, p, a, k + 1)
    case GivenUp(_) => GaveUp(j, run, n, w, p)
    case Failing(_) => GaveUp(j, run, n, w, p)
    case Published(_) => true
    case _ => Fresh(j, run, n, w, p)
  }

  ghost predicate OthersFresh(j: Job, run: seq<Download>, n: nat, w: nat, p: nat)
    requires n < |run| && j.peers > 0
  {
    forall v: nat | v < |run[n].workers| && v != w :: Fresh(j, run, n, v, p)
  }

  /** Nobody holds the piece and nobody will. */
  ghost predicate Released(t: Download, p: nat) {
    p !in t.queue && !Holds(t.workers, p)
  }

  /** One worker tried every place equally often, and nobody else tried any for the piece. */
  ghost predicate TriedAll(j: Job, run: seq<Download>, n: nat, w: nat, p: nat)
    requires n < |run| && j.peers > 0
  {
    w < |run[n].workers| && GaveUp(j, run, n, w, p) && OthersFresh(j, run, n, w, p)
  }

  /** The whole story of one piece up to moment `n`. */
  ghost predicate Story(j: Job, run: seq<Download>, n: nat, p: nat)
    requires n < |run| && j.peers > 0
  {
    var t := run[n];
    && (p in t.queue ==> forall w: nat | w < |t.workers| :: Fresh(j, run, n, w, p))
    && (forall w: nat | w < |t.workers| && Held(t.workers[w]) == Some(p) ::
          HolderTried(j, run, n, w, p, t.workers[w]) && OthersFresh(j, run, n, w, p))
    && (Released(t, p) && p < |t.local| && t.local[p] == FAILED ==> exists w: nat :: TriedAll(j, run, n, w, p))
  }

  // ---------- One step ----------

  lemma SameCounts(j: Job, run: seq<Download>, n: nat, w: nat, p: nat, c: nat, k: nat)
    requires 0 < n < |run| && !TriesOne(j, run[n - 1], run[n], w, p)
    ensures Even(j, run, n, w, p, c, k) <==> Even(j, run, n - 1, w, p, c, k)
  {
    var before := n - 1;
    forall m: nat
      ensures TriedAt(j, run, n, w, p, m) == TriedAt(j, run, before, w, p, m)
    {
    }
  }

  /** A step in which `w` neither tries nor fails for the piece. */
  ghost predicate Idle(j: Job, run: seq<Download>, n: nat, w: nat, p: nat)
    requires 0 < n < |run| && j.peers > 0
  {
    !TriesOne(j, run[n - 1], run[n], w, p) && !GoesBad(j, run[n - 1], run[n], w, p)
  }

  lemma SameFresh(j: Job, run: seq<Download>, n: nat, w: nat, p: nat)
    requires j.peers > 0 && 0 < n < |run| && Idle(j, run, n, w, p)
    ensures Fresh(j, run, n, w, p) <==> Fresh(j, run, n - 1, w, p)
  {
    SameCounts(j, run, n, w, p, 0, 0);
  }

  lemma StillBegan(j: Job, run: seq<Download>, n: nat, w: nat, p: nat, c: nat)
    requires j.peers > 0 && 0 < n < |run| && Began(j, run, n - 1, w, p, c)
    ensures Began(j, run, n, w, p, c)
  {
    var m: nat :| m <= n - 1 && Even(j, run, m, w, p, c, 0) && c + Bad(j, run, m, w, p) < MAX_RETRIES;
  }

  lemma SameSpent(j: Job, run: seq<Download>, n: nat, w: nat, p: nat, a: nat, k: nat)
    requires j.peers > 0 && 0 < n < |run| && Idle(j, run, n, w, p) && Spent(j, run, n - 1, w, p, a, k)
    ensures Spent(j, run, n, w, p, a, k)
  {
    var c: nat :| SpentBy(j, run, n - 1, w, p, c, a, k);
    SameCounts(j, run, n, w, p, c, k);
    StillBegan(j, run, n, w, p, c);
    assert SpentBy(j, run, n, w, p, c, a, k);
  }

  lemma SameGaveUp(j: Job, run: seq<Download>, n: nat, w: nat, p: nat)
    requires j.peers > 0 && 0 < n < |run| && Idle(j, run, n, w, p) && GaveUp(j, run, n - 1, w, p)
    ensures GaveUp(j, run, n, w, p)
  {
    var c: nat :| GaveUpAfter(j, run, n - 1, w, p, c);
    SameCounts(j, run, n, w, p, c, 0);
    StillBegan(j, run, n, w, p, c - 1);
    assert GaveUpAfter(j, run, n, w, p, c);
  }

  lemma SameTried(j: Job, run: seq<Download>, n: nat, w: nat, p: nat, pc: Pc)
    requires j.peers > 0 && 0 < n < |run| && Idle(j, run, n, w, p)
    requires HolderTried(j, run, n - 1, w, p, pc)
    ensures HolderTried(j, run, n, w, p, pc)
  {
    if pc.Trying? {
      SameSpent(j, run, n, w, p, pc.attempt, pc.k);
    } else if pc.Writing? {
      SameSpent(j, run, n, w, p, pc.attempt, pc.k + 1);
    } else if pc.GivenUp? || pc.Failing? {
      SameGaveUp(j, run, n, w, p);
    } else if !pc.Published? {
      SameFresh(j, run, n, w, p);
    }
  }

  lemma OneMore(j: Job, run: seq<Download>, n: nat, w: nat, p: nat, c: nat, k: nat)
    requires 0 < n < |run| && k < j.peers && TriesPlace(j, run[n - 1], run[n], w, p, k)
    requires Even(j, run, n - 1, w, p, c, k)
    ensures Even(j, run, n, w, p, c, k + 1)
  {
    forall m: nat | m < j.peers
      ensures TriedAt(j, run, n, w, p, m) == c + if m < k + 1 then 1 else 0
    {
      assert TriedAt(j, run, n - 1, w, p, m) == c + if m < k then 1 else 0;
      assert TriesPlace(j, run[n - 1], run[n], w, p, m) <==> m == k;
    }
  }

  lemma NextPass(j: Job, run: seq<Download>, n: nat, w: nat, p: nat, c: nat)
    requires n < |run| && Even(j, run, n, w, p, c, j.peers)
    ensures Even(j, run, n, w, p, c + 1, 0)
  {
  }

  /** A worker's step goes bad exactly when the event says so. */
  lemma GoesBadIff(j: Job, t: Download, w: nat, e: Event, p: nat)
    requires j.peers > 0 && Can(j, t, w, e) && Held(t.workers[w]) == Some(p)
    ensures GoesBad(j, t, Do(j, t, w, e), w, p) <==> e.Reject? || e.WriteFails?
  {
    if x: Event :| (x.Reject? || x.WriteFails?) && Can(j, t, w, x) && Do(j, t, w, e) == Do(j, t, w, x) {
      var pc := t.workers[w];
      assert Do(j, t, w, x).workers[w] == Trying(pc.i, pc.attempt + 1, pc.k + 1);
      assert Do(j, t, w, e).workers[w] == Trying(pc.i, pc.attempt + 1, pc.k + 1);
    }
  }

  lemma BadMoves(j: Job, t: Download, t': Download, w: nat, p: nat)
    requires j.peers > 0 && GoesBad(j, t, t', w, p)
    ensures w < |t'.workers| && t'.workers[w] != t.workers[w]
  {
    var e: Event :| (e.Reject? || e.WriteFails?) && Can(j, t, w, e) && t' == Do(j, t, w, e);
  }

  /** The step of another worker tries nobody on behalf of `v`. */
  lemma OthersIdle(j: Job, run: seq<Download>, n: nat, w: nat, e: Event, v: nat, p: nat)
    requires j.peers > 0 && StepBy(j, run, n, w, e) && v != w
    ensures Idle(j, run, n, v, p)
  {
    WorkerStep(j, run[n - 1], w, e);
    if GoesBad(j, run[n - 1], run[n], v, p) {
      BadMoves(j, run[n - 1], run[n], v, p);
    }
  }

  lemma WorkerStep(j: Job, t: Download, w: nat, e: Event)
    requires j.peers > 0 && Can(j, t, w, e)
    ensures |Do(j, t, w, e).workers| == |t.workers|
    ensures forall v :: 0 <= v < |t.workers| && v != w ==> Do(j, t, w, e).workers[v] == t.workers[v]
  {
  }

  ghost predicate StepBy(j: Job, run: seq<Download>, n: nat, w: nat, e: Event)
    requires j.peers > 0
  {
    0 < n < |run| && Can(j, run[n - 1], w, e) && run[n] == Do(j, run[n - 1], w, e)
  }

  /** The holder's own step keeps its account of whom it tried. */
  lemma HolderStep(j: Job, run: seq<Download>, n: nat, w: nat, e: Event, p: nat)
    requires j.peers > 0 && StepBy(j, run, n, w, e)
    requires Held(run[n - 1].workers[w]) == Some(p) && HolderTried(j, run, n - 1, w, p, run[n - 1].workers[w])
    ensures Held(run[n].workers[w]) == Some(p) ==> HolderTried(j, run, n, w, p, run[n].workers[w])
    ensures e.FailLocal? ==> GaveUp(j, run, n, w, p)
  {
    var pc := run[n - 1].workers[w];
    GoesBadIff(j, run[n - 1], w, e, p);
    if pc.Trying? && pc.k < j.peers {
      TryingStep(j, run, n, w, e, p);
    } else if pc.Trying? {
      PassEnds(j, run, n, w, e, p);
    } else if pc.Writing? {
      WritingStep(j, run, n, w, e, p);
    } else if pc.GivenUp? || pc.Failing? {
      SameGaveUp(j, run, n, w, p);
    } else if !pc.Published? {
      SameFresh(j, run, n, w, p);
      FirstPass(j, run, n, w, p);
    }
  }

  lemma FirstPass(j: Job, run: seq<Download>, n: nat, w: nat, p: nat)
    requires j.peers > 0 && n < |run|
    ensures Fresh(j, run, n, w, p) ==> Spent(j, run, n, w, p, 0, 0)
  {
    if Fresh(j, run, n, w, p) {
      assert Began(j, run, n, w, p, 0);
      assert SpentBy(j, run, n, w, p, 0, 0, 0);
    }
  }

  lemma TryingStep(j: Job, run: seq<Download>, n: nat, w: nat, e: Event, p: nat)
    requires j.peers > 0 && StepBy(j, run, n, w, e)
    requires GoesBad(j, run[n - 1], run[n], w, p) <==> e.Reject? || e.WriteFails?
    requires var pc := run[n - 1].workers[w];
      pc.Trying? && pc.i == p && pc.k < j.peers && Spent(j, run, n - 1, w, p, pc.attempt, pc.k)
    ensures Held(run[n].workers[w]) == Some(p) && HolderTried(j, run, n, w, p, run[n].workers[w])
  {
    var pc, pc' := run[n - 1].workers[w], run[n].workers[w];
    var c: nat :| SpentBy(j, run, n - 1, w, p, c, pc.attempt, pc.k);
    OneMore(j, run, n, w, p, c, pc.k);
    StillBegan(j, run, n, w, p, c);
    assert SpentBy(j, run, n, w, p, c, pc'.attempt, pc.k + 1);
  }

  lemma PassEnds(j: Job, run: seq<Download>, n: nat, w: nat, e: Event, p: nat)
    requires j.peers > 0 && StepBy(j, run, n, w, e) && !GoesBad(j, run[n - 1], run[n], w, p)
    requires var pc := run[n - 1].workers[w];
      pc.Trying? && pc.i == p && pc.k == j.peers && Spent(j, run, n - 1, w, p, pc.attempt, pc.k)
    ensures Held(run[n].workers[w]) == Some(p) && HolderTried(j, run, n, w, p, run[n].workers[w])
  {
    var pc, pc' := run[n - 1].workers[w], run[n].workers[w];
    var c: nat :| SpentBy(j, run, n - 1, w, p, c, pc.attempt, pc.k);
    SameCounts(j, run, n, w, p, c, pc.k);
    NextPass(j, run, n, w, p, c);
    if pc'.Trying? {
      assert Began(j, run, n, w, p, c + 1);
      assert SpentBy(j, run, n, w, p, c + 1, pc'.attempt, 0);
    } else {
      StillBegan(j, run, n, w, p, c);
      assert GaveUpAfter(j, run, n, w, p, c + 1);
    }
  }

  lemma WritingStep(j: Job, run: seq<Download>, n: nat, w: nat, e: Event, p: nat)
    requires j.peers > 0 && StepBy(j, run, n, w, e)
    requires GoesBad(j, run[n - 1], run[n], w, p) <==> e.Reject? || e.WriteFails?
    requires var pc := run[n - 1].workers[w];
      pc.Writing? && pc.i == p && pc.k < j.peers && Spent(j, run, n - 1, w, p, pc.attempt, pc.k + 1)
    ensures Held(run[n].workers[w]) == Some(p) && HolderTried(j, run, n, w, p, run[n].workers[w])
  {
    var pc, pc', k := run[n - 1].workers[w], run[n].workers[w], run[n - 1].workers[w].k + 1;
    var c: nat :| SpentBy(j, run, n - 1, w, p, c, pc.attempt, k);
    SameCounts(j, run, n, w, p, c, k);
    StillBegan(j, run, n, w, p, c);
    assert !pc'.Published? ==> SpentBy(j, run, n, w, p, c, pc'.attempt, k);
  }

  // ---------- The story of a piece ----------

  lemma FirstStory(j: Job, existing: Option<Bytes>, sidecar: seq<int>, run: seq<Download>, p: nat)
    requires ValidJob(j) && Life(j, existing, sidecar, run) && p < |j.hashes|
    ensures Story(j, run, 0, p)
  {
    var t, init := run[0], Loaded(sidecar, |j.hashes|);
    assert p in t.queue <==> init[p] != COMPLETED;
  }

  lemma QueuedStory(j: Job, run: seq<Download>, n: nat, w: nat, e: Event, p: nat)
    requires j.peers > 0 && StepBy(j, run, n, w, e) && Story(j, run, n - 1, p) && p in run[n - 1].queue
    requires !Holds(run[n - 1].workers, p)
    ensures Story(j, run, n, p)
  {
    var t, t' := run[n - 1], run[n];
    forall v: nat | v < |t'.workers| ensures Fresh(j, run, n, v, p) {
      assert Fresh(j, run, n - 1, v, p);
      assert Held(t.workers[v]) != Some(p);
      SameFresh(j, run, n, v, p);
    }
    if e.Pop? && t.queue[0] == p {
      assert Held(t'.workers[w]) == Some(p);
    } else {
      assert p in t'.queue;
    }
  }

  /** The story goes on when the holder of the piece takes the step... */
  lemma HeldStory(j: Job, init: seq<int>, run: seq<Download>, n: nat, w: nat, e: Event, p: nat)
    requires ValidJob(j) && StepBy(j, run, n, w, e) && Story(j, run, n - 1, p)
    requires Conserved(j, init, run[n - 1]) && Conserved(j, init, run[n])
    requires Held(run[n - 1].workers[w]) == Some(p)
    ensures Story(j, run, n, p)
  {
    var t, t' := run[n - 1], run[n];
    HolderStep(j, run, n, w, e, p);
    HolderFacts(j, init, t, w);
    WorkerStep(j, t, w, e);
    assert OthersFresh(j, run, n - 1, w, p);
    forall v: nat | v < |t'.workers| && v != w ensures Fresh(j, run, n, v, p) {
      assert Fresh(j, run, n - 1, v, p);
      OthersIdle(j, run, n, w, e, v, p);
      SameFresh(j, run, n, v, p);
    }
    assert OthersFresh(j, run, n, w, p);
    assert forall v: nat | v < |t.workers| && Held(t.workers[v]) == Some(p) :: v == w;
    if Released(t', p) && t'.local[p] == FAILED {
      assert Held(t'.workers[w]) != Some(p);
      assert TriedAll(j, run, n, w, p);
    }
  }

  /** Nobody tries to get a piece but its holder. */
  lemma OnlyHolderTries(j: Job, run: seq<Download>, n: nat, w: nat, e: Event, p: nat, v: nat)
    requires j.peers > 0 && StepBy(j, run, n, w, e) && Held(run[n - 1].workers[w]) != Some(p)
    ensures Idle(j, run, n, v, p)
  {
    if v != w {
      OthersIdle(j, run, n, w, e, v, p);
    }
  }

  /** ...when another worker does... */
  lemma OtherStory(j: Job, init: seq<int>, run: seq<Download>, n: nat, w: nat, e: Event, p: nat, v: nat)
    requires ValidJob(j) && StepBy(j, run, n, w, e) && Story(j, run, n - 1, p)
    requires Conserved(j, init, run[n - 1]) && Conserved(j, init, run[n])
    requires v < |run[n - 1].workers| && v != w && Held(run[n - 1].workers[v]) == Some(p)
    ensures Story(j, run, n, p)
  {
    var t, t' := run[n - 1], run[n];
    WorkerStep(j, t, w, e);
    assert Held(t.workers[w]) != Some(p) && Held(t'.workers[w]) != Some(p);
    OnlyHolderTries(j, run, n, w, e, p, v);
    SameTried(j, run, n, v, p, t.workers[v]);
    assert OthersFresh(j, run, n - 1, v, p);
    forall u: nat | u < |t'.workers| && u != v ensures Fresh(j, run, n, u, p) {
      assert Fresh(j, run, n - 1, u, p);
      OnlyHolderTries(j, run, n, w, e, p, u);
      SameFresh(j, run, n, u, p);
    }
    assert OthersFresh(j, run, n, v, p);
    HolderFacts(j, init, t', v);
  }

  /** ...and when nobody holds the piece any more. */
  lemma SettledStory(j: Job, init: seq<int>, run: seq<Download>, n: nat, w: nat, e: Event, p: nat)
    requires ValidJob(j) && StepBy(j, run, n, w, e) && Story(j, run, n - 1, p)
    requires Conserved(j, init, run[n - 1]) && Released(run[n - 1], p)
    ensures Story(j, run, n, p)
  {
    var t, t' := run[n - 1], run[n];
    WorkerStep(j, t, w, e);
    StaysSettled(j, init, t, w, e, p);
    if p < |t'.local| && t'.local[p] == FAILED {
      var v: nat :| TriedAll(j, run, n - 1, v, p);
      OnlyHolderTries(j, run, n, w, e, p, v);
      SameGaveUp(j, run, n, v, p);
      assert OthersFresh(j, run, n - 1, v, p);
      forall u: nat | u < |t'.workers| && u != v ensures Fresh(j, run, n, u, p) {
        assert Fresh(j, run, n - 1, u, p);
        OnlyHolderTries(j, run, n, w, e, p, u);
        SameFresh(j, run, n, u, p);
      }
      assert TriedAll(j, run, n, v, p);
    }
  }

  lemma StaysSettled(j: Job, init: seq<int>, t: Download, w: nat, e: Event, p: nat)
    requires j.peers > 0 && Conserved(j, init, t) && Can(j, t, w, e) && Released(t, p)
    ensures Released(Do(j, t, w, e), p)
    ensures |Do(j, t, w, e).local| == |t.local|
    ensures p < |t.local| ==> Do(j, t, w, e).local[p] == t.local[p]
  {
    var t' := Do(j, t, w, e);
    WorkerStep(j, t, w, e);
    assert Held(t.workers[w]) != Some(p);
    if e.Pop? && t.queue != [] {
      assert t.queue[0] in t.queue;
    }
    forall v | 0 <= v < |t'.workers| ensures Held(t'.workers[v]) != Some(p) {
      assert Held(t.workers[v]) != Some(p);
    }
  }

  lemma StoryStep(j: Job, init: seq<int>, run: seq<Download>, n: nat, w: nat, e: Event, p: nat)
    requires ValidJob(j) && StepBy(j, run, n, w, e) && Story(j, run, n - 1, p)
    requires Conserved(j, init, run[n - 1]) && Conserved(j, init, run[n])
    ensures Story(j, run, n, p)
  {
    var t := run[n - 1];
    if v: nat :| v < |t.workers| && Held(t.workers[v]) == Some(p) {
      if v == w {
        HeldStory(j, init, run, n, w, e, p);
      } else {
        OtherStory(j, init, run, n, w, e, p, v);
      }
    } else if p in t.queue {
      QueuedStory(j, run, n, w, e, p);
    } else {
      SettledStory(j, init, run, n, w, e, p);
    }
  }

  ghost predicate ConservedAt(j: Job, init: seq<int>, run: seq<Download>, n: nat)
    requires n < |run|
  {
    Conserved(j, init, run[n])
  }

  /** Step by step, with the work conserved at every moment. */
  ghost predicate Proceeds(j: Job, init: seq<int>, run: seq<Download>)
    requires j.peers > 0
  {
    && (forall n: nat | n < |run| :: ConservedAt(j, init, run, n))
    && (forall n: nat | 0 < n < |run| :: StepAt(j, run, n))
  }

  lemma {:induction false} StoryFrom(j: Job, init: seq<int>, run: seq<Download>, n: nat, p: nat)
    requires ValidJob(j) && Proceeds(j, init, run) && n < |run| && Story(j, run, 0, p)
    ensures Story(j, run, n, p)
  {
    if n > 0 {
      StoryFrom(j, init, run, n - 1, p);
      var w, e := SomeStep(j, init, run, n);
      assert ConservedAt(j, init, run, n - 1) && ConservedAt(j, init, run, n);
      StoryStep(j, init, run, n, w, e, p);
    }
  }

  lemma SomeStep(j: Job, init: seq<int>, run: seq<Download>, n: nat) returns (w: nat, e: Event)
    requires j.peers > 0 && Proceeds(j, init, run) && 0 < n < |run|
    ensures StepBy(j, run, n, w, e)
  {
    assert StepAt(j, run, n);
    w, e :| Can(j, run[n - 1], w, e) && run[n] == Do(j, run[n - 1], w, e);
  }

  lemma LifeProceeds(j: Job, existing: Option<Bytes>, sidecar: seq<int>, run: seq<Download>)
    requires ValidJob(j) && Life(j, existing, sidecar, run)
    ensures Proceeds(j, Loaded(sidecar, |j.hashes|), run)
  {
    forall n: nat | n < |run| ensures ConservedAt(j, Loaded(sidecar, |j.hashes|), run, n) {
      LifeConserved(j, existing, sidecar, run, n);
    }
  }

  lemma EveryStory(j: Job, existing: Option<Bytes>, sidecar: seq<int>, run: seq<Download>, n: nat, p: nat)
    requires ValidJob(j) && Life(j, existing, sidecar, run) && n < |run| && p < |j.hashes|
    ensures Story(j, run, n, p)
  {
    FirstStory(j, existing, sidecar, run, p);
    LifeProceeds(j, existing, sidecar, run);
    StoryFrom(j, Loaded(sidecar, |j.hashes|), run, n, p);
  }

  lemma LifeConserved(j: Job, existing: Option<Bytes>, sidecar: seq<int>, run: seq<Download>, n: nat)
    requires ValidJob(j) && Life(j, existing, sidecar, run) && n < |run|
    ensures Conserved(j, Loaded(sidecar, |j.hashes|), run[n])
  {
    LifeKeepsInv(j, existing, sidecar, run, n);
  }

  /**
   * A piece given up in this run, by status 3 with nobody working on it: one worker alone tried to get
   * it, and tried every listed peer, each the same number of times. These passes together with the tries
   * that ended in a wrong hash or a failed write are at least five, and before the last pass, at moment m,
   * they were fewer: so five passes when nothing went bad, and never more.
   */
  lemma GivenUpAfterTryingAll(j: Job, existing: Option<Bytes>, sidecar: seq<int>, run: seq<Download>,
                              n: nat, p: nat)
    returns (w: nat, c: nat, m: nat)
    requires ValidJob(j) && Life(j, existing, sidecar, run) && n < |run| && p < |run[n].local|
    requires run[n].local[p] == FAILED && Released(run[n], p)
    ensures w < |run[n].workers| && OthersFresh(j, run, n, w, p)
    ensures forall q: nat | q < j.peers :: TriedAt(j, run, n, w, p, Place(j, w, q)) == c
    ensures 1 <= c <= 5 && c + Bad(j, run, n, w, p) >= 5
    ensures m <= n && Even(j, run, m, w, p, c - 1, 0) && c - 1 + Bad(j, run, m, w, p) < 5
    ensures Bad(j, run, n, w, p) == 0 ==> c == 5
  {
    LifeConserved(j, existing, sidecar, run, n);
    EveryStory(j, existing, sidecar, run, n, p);
    w, c, m := Unpack(j, run, n, p);
    forall q: nat | q < j.peers ensures TriedAt(j, run, n, w, p, Place(j, w, q)) == c {
      PlaceRight(j, w, q);
    }
  }

  lemma Unpack(j: Job, run: seq<Download>, n: nat, p: nat) returns (w: nat, c: nat, m: nat)
    requires j.peers > 0 && n < |run| && exists v: nat :: TriedAll(j, run, n, v, p)
    ensures w < |run[n].workers| && OthersFresh(j, run, n, w, p)
    ensures c >= 1 && Even(j, run, n, w, p, c, 0) && c + Bad(j, run, n, w, p) >= MAX_RETRIES
    ensures m <= n && Even(j, run, m, w, p, c - 1, 0) && c - 1 + Bad(j, run, m, w, p) < MAX_RETRIES
  {
    w :| TriedAll(j, run, n, w, p);
    c :| GaveUpAfter(j, run, n, w, p, c);
    m :| m <= n && Even(j, run, m, w, p, c - 1, 0) && c - 1 + Bad(j, run, m, w, p) < MAX_RETRIES;
  }

  /** After the join this is what status 3 means, whichever pieces have it. */
  lemma FailedMeansTriedAll(j: Job, existing: Option<Bytes>, sidecar: seq<int>, run: seq<Download>, p: nat)
    returns (w: nat, c: nat, m: nat)
    requires ValidJob(j) && Life(j, existing, sidecar, run) && AllDone(run[|run| - 1])
    requires p < |run[|run| - 1].local| && run[|run| - 1].local[p] == FAILED
    ensures w < |run[|run| - 1].workers| && OthersFresh(j, run, |run| - 1, w, p)
    ensures forall q: nat | q < j.peers :: TriedAt(j, run, |run| - 1, w, p, Place(j, w, q)) == c
    ensures 1 <= c <= 5 && c + Bad(j, run, |run| - 1, w, p) >= 5
    ensures m < |run| && Even(j, run, m, w, p, c - 1, 0) && c - 1 + Bad(j, run, m, w, p) < 5
  {
    LifeConserved(j, existing, sidecar, run, |run| - 1);
    assert run[|run| - 1].workers[0].Done?;
    w, c, m := GivenUpAfterTryingAll(j, existing, sidecar, run, |run| - 1, p);
  }
}
