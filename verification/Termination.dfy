/** Every schedule of a download's workers comes to an end, and only with every worker stopped. */
module Termination {
  import opened Text
  import opened Pieces
  import opened Transfer
  import opened DownloadSafety
  import opened Resume

  /** More than one try and the write that may follow it can take. */
  const TRY_COST := PIECE_SIZE + 10

  /** Passes left after the current one. */
  function PassesLeft(attempt: nat): nat {
    if attempt < MAX_RETRIES - 1 then MAX_RETRIES - 1 - attempt else 0
  }

  function Times(passes: nat, perPass: nat): nat {
    if passes == 0 then 0 else perPass + Times(passes - 1, perPass)
  }

  /** Tries left, counting the end of each pass as one. */
  function TriesLeft(peers: nat, attempt: nat, k: nat): nat {
    Times(PassesLeft(attempt), peers + 1) + (if k <= peers then peers - k else 0) + 1
  }

  function Tail(n: nat): nat {
    2 * n + 7
  }

  function ResumeRank(n: nat, peers: nat, a: After): nat {
    match a
    case Loop => 1
    case Try(_) => Tail(n) + TriesLeft(peers, 0, 0) * TRY_COST
  }

  /** An upper bound on the steps a worker can still take before it next looks at the queue. */
  function PcRank(n: nat, peers: nat, pc: Pc): nat {
    match pc
    case Done => 0
    case Fetch => 1
    case Claimed(i) => ClaimRank(n, peers)
    case Marked(i) => ClaimRank(n, peers) - 1
    case Opening(a) => ResumeRank(n, peers, a) + 2 * n + 3
    case Saving(a, base, buffer) =>
      ResumeRank(n, peers, a) + 2 * (if base + |buffer| <= n then n - base - |buffer| else 0) + |buffer| + 1
    case Trying(_, attempt, k) => Tail(n) + TriesLeft(peers, attempt, k) * TRY_COST
    case Writing(_, attempt, k, payload, done) =>
      Tail(n) + (TriesLeft(peers, attempt, k) - 1) * TRY_COST
        + (if done <= |payload| then |payload| - done else 0) + 2
    case GivenUp(_) => 2 * n + 6
    case Published(_) => 2 * n + 5
    case Failing(_) => 2 * n + 5
  }

  function ClaimRank(n: nat, peers: nat): nat {
    Tail(n) + TriesLeft(peers, 0, 0) * TRY_COST + 2 * n + 5
  }

  function SumRank(n: nat, peers: nat, ws: seq<Pc>): nat {
    if ws == [] then 0 else PcRank(n, peers, ws[0]) + SumRank(n, peers, ws[1..])
  }

  function StepsLeft(j: Job, t: Download): nat {
    |t.queue| * ClaimRank(|t.local|, j.peers) + SumRank(|t.local|, j.peers, t.workers)
  }

  lemma {:induction false} SumUpdate(n: nat, peers: nat, ws: seq<Pc>, w: nat, pc: Pc)
    requires w < |ws|
    ensures SumRank(n, peers, ws[w := pc]) == SumRank(n, peers, ws) - PcRank(n, peers, ws[w]) + PcRank(n, peers, pc)
  {
    if w == 0 {
      assert ws[w := pc][1..] == ws[1..];
    } else {
      assert ws[w := pc][1..] == ws[1..][w - 1 := pc];
      SumUpdate(n, peers, ws[1..], w - 1, pc);
    }
  }

  lemma NextTry(peers: nat, attempt: nat, k: nat)
    requires k < peers
    ensures TriesLeft(peers, attempt, k + 1) == TriesLeft(peers, attempt, k) - 1
    ensures TriesLeft(peers, attempt + 1, k + 1) <= TriesLeft(peers, attempt, k) - 1
  {
  }

  lemma FewerPasses(peers: nat, attempt: nat)
    requires attempt + 1 < MAX_RETRIES
    ensures TriesLeft(peers, attempt + 1, 0) == TriesLeft(peers, attempt, peers) - 1
  {
  }

  lemma SaveRankFalls(j: Job, t: Download, w: nat, e: Event)
    requires j.peers > 0 && Can(j, t, w, e)
    requires e.OpenSave? || e.OpenFails? || e.ReadCell? || e.Flush? || e.CloseSave?
    ensures PcRank(|t.local|, j.peers, Do(j, t, w, e).workers[w]) < PcRank(|t.local|, j.peers, t.workers[w])
  {
  }

  lemma TryRankFalls(j: Job, t: Download, w: nat, e: Event)
    requires j.peers > 0 && Can(j, t, w, e) && t.workers[w].Trying?
    ensures PcRank(|t.local|, j.peers, Do(j, t, w, e).workers[w]) < PcRank(|t.local|, j.peers, t.workers[w])
  {
    var pc := t.workers[w];
    if pc.k < j.peers {
      TryCosts(|t.local|, j.peers, pc.i, pc.attempt, pc.k);
      assert e.Accept? ==> Do(j, t, w, e).workers[w] == Writing(pc.i, pc.attempt, pc.k, e.p, 0) && |e.p| <= PIECE_SIZE;
      if e.Accept? {
        WriteBegins(|t.local|, j.peers, pc.i, pc.attempt, pc.k, e.p);
      }
    } else {
      PassCosts(|t.local|, j.peers, pc.i, pc.attempt);
    }
  }

  lemma TryCosts(n: nat, peers: nat, i: nat, attempt: nat, k: nat)
    requires k < peers
    ensures PcRank(n, peers, Trying(i, attempt, k + 1)) < PcRank(n, peers, Trying(i, attempt, k))
    ensures PcRank(n, peers, Trying(i, attempt + 1, k + 1)) < PcRank(n, peers, Trying(i, attempt, k))
  {
    NextTry(peers, attempt, k);
    var more := TriesLeft(peers, attempt, k);
    assert TriesLeft(peers, attempt, k + 1) * TRY_COST <= (more - 1) * TRY_COST;
    assert TriesLeft(peers, attempt + 1, k + 1) * TRY_COST <= (more - 1) * TRY_COST;
  }

  /** Writing a piece takes no more steps than the try allows for. */
  lemma WriteBegins(n: nat, peers: nat, i: nat, attempt: nat, k: nat, payload: Bytes)
    requires |payload| <= PIECE_SIZE
    ensures PcRank(n, peers, Writing(i, attempt, k, payload, 0)) < PcRank(n, peers, Trying(i, attempt, k))
  {
    var more := TriesLeft(peers, attempt, k);
    assert more >= 1 && more * TRY_COST == (more - 1) * TRY_COST + TRY_COST;
  }

  lemma PassCosts(n: nat, peers: nat, i: nat, attempt: nat)
    ensures attempt + 1 < MAX_RETRIES ==>
      PcRank(n, peers, Trying(i, attempt + 1, 0)) < PcRank(n, peers, Trying(i, attempt, peers))
    ensures PcRank(n, peers, GivenUp(i)) < PcRank(n, peers, Trying(i, attempt, peers))
  {
    var more := TriesLeft(peers, attempt, peers);
    assert more >= 1 && more * TRY_COST >= TRY_COST;
    if attempt + 1 < MAX_RETRIES {
      FewerPasses(peers, attempt);
      assert TriesLeft(peers, attempt + 1, 0) * TRY_COST == (more - 1) * TRY_COST;
    }
  }

  lemma WriteRankFalls(j: Job, t: Download, w: nat, e: Event)
    requires j.peers > 0 && Can(j, t, w, e) && t.workers[w].Writing? && t.workers[w].k < j.peers
    ensures PcRank(|t.local|, j.peers, Do(j, t, w, e).workers[w]) < PcRank(|t.local|, j.peers, t.workers[w])
  {
    var pc := t.workers[w];
    if e.WriteFails? {
      TryAfterWrite(|t.local|, j.peers, pc.i, pc.attempt, pc.k, pc.payload, pc.done);
    } else if e.Publish? {
      WriteEnds(|t.local|, j.peers, pc.i, pc.attempt, pc.k, pc.payload, pc.done);
    } else {
      assert e.WriteSome?;
      WriteGoesOn(|t.local|, j.peers, pc.i, pc.attempt, pc.k, pc.payload, pc.done, e.m);
    }
  }

  lemma WriteEnds(n: nat, peers: nat, i: nat, attempt: nat, k: nat, payload: Bytes, done: nat)
    ensures PcRank(n, peers, Published(i)) < PcRank(n, peers, Writing(i, attempt, k, payload, done))
  {
    assert TriesLeft(peers, attempt, k) >= 1;
    assert (TriesLeft(peers, attempt, k) - 1) * TRY_COST >= 0;
  }

  lemma WriteGoesOn(n: nat, peers: nat, i: nat, attempt: nat, k: nat, payload: Bytes, done: nat, m: nat)
    requires done < m <= |payload|
    ensures PcRank(n, peers, Writing(i, attempt, k, payload, m))
          < PcRank(n, peers, Writing(i, attempt, k, payload, done))
  {
  }

  /** A failed write costs the try it was part of. */
  lemma TryAfterWrite(n: nat, peers: nat, i: nat, attempt: nat, k: nat, payload: Bytes, done: nat)
    requires k < peers
    ensures PcRank(n, peers, Trying(i, attempt + 1, k + 1)) < PcRank(n, peers, Writing(i, attempt, k, payload, done))
  {
    var less, more := TriesLeft(peers, attempt + 1, k + 1), TriesLeft(peers, attempt, k);
    NextTry(peers, attempt, k);
    assert less <= more - 1;
    assert less * TRY_COST <= (more - 1) * TRY_COST;
  }

  lemma WorkerFrame(j: Job, t: Download, w: nat, e: Event)
    requires j.peers > 0 && Can(j, t, w, e) && !e.Pop?
    ensures |Do(j, t, w, e).local| == |t.local| && Do(j, t, w, e).queue == t.queue
    ensures Do(j, t, w, e).workers == t.workers[w := Do(j, t, w, e).workers[w]]
  {
  }

  /** Whatever happens to a worker other than looking at the queue brings it closer to that. */
  lemma RankFalls(j: Job, t: Download, w: nat, e: Event)
    requires j.peers > 0 && Can(j, t, w, e) && !e.Pop?
    requires t.workers[w].Writing? ==> t.workers[w].k < j.peers
    ensures PcRank(|t.local|, j.peers, Do(j, t, w, e).workers[w]) < PcRank(|t.local|, j.peers, t.workers[w])
  {
    var pc := t.workers[w];
    if pc.Opening? || pc.Saving? {
      SaveRankFalls(j, t, w, e);
    } else if pc.Trying? {
      TryRankFalls(j, t, w, e);
    } else if pc.Writing? {
      WriteRankFalls(j, t, w, e);
    }
  }

  lemma StepsLeftFall(j: Job, t: Download, w: nat, e: Event)
    requires ValidJob(j) && Can(j, t, w, e) && RetryOk(j, w, t.workers[w])
    ensures StepsLeft(j, Do(j, t, w, e)) < StepsLeft(j, t)
  {
    if e.Pop? {
      PopMeasure(j, t, w);
    } else {
      RankFalls(j, t, w, e);
      WorkerFrame(j, t, w, e);
      SumUpdate(|t.local|, j.peers, t.workers, w, Do(j, t, w, e).workers[w]);
    }
  }

  lemma OneLess(q: nat, c: nat)
    requires q > 0
    ensures q * c == (q - 1) * c + c
  {
  }

  lemma PopMeasure(j: Job, t: Download, w: nat)
    requires j.peers > 0 && Can(j, t, w, Pop)
    ensures StepsLeft(j, Do(j, t, w, Pop)) < StepsLeft(j, t)
  {
    var n, c := |t.local|, ClaimRank(|t.local|, j.peers);
    if t.queue == [] {
      SumUpdate(n, j.peers, t.workers, w, Done);
    } else {
      SumUpdate(n, j.peers, t.workers, w, Claimed(t.queue[0]));
      OneLess(|t.queue|, c);
    }
  }

  /** No schedule, no mix of failures and no behaviour of the peers keeps a download going for ever. */
  lemma {:induction false} RunsEnd(j: Job, existing: Option<Bytes>, sidecar: seq<int>, run: seq<Download>,
                                   i: nat)
    requires ValidJob(j) && Life(j, existing, sidecar, run) && i < |run|
    ensures StepsLeft(j, run[i]) + i <= StepsLeft(j, run[0])
  {
    if i > 0 {
      RunsEnd(j, existing, sidecar, run, i - 1);
      RunShortens(j, existing, sidecar, run, i);
    }
  }

  lemma RunShortens(j: Job, existing: Option<Bytes>, sidecar: seq<int>, run: seq<Download>, i: nat)
    requires ValidJob(j) && Life(j, existing, sidecar, run) && 0 < i < |run|
    ensures StepsLeft(j, run[i]) < StepsLeft(j, run[i - 1])
  {
    LifeKeepsInv(j, existing, sidecar, run, i - 1);
    assert StepAt(j, run, i);
    StepShortens(j, Preallocated(existing, Size(j)), Loaded(sidecar, |j.hashes|), run[i - 1], run[i]);
  }

  lemma StepShortens(j: Job, file0: Bytes, init: seq<int>, t: Download, t': Download)
    requires DownloadInv(j, file0, init, t) && Step(j, t, t')
    ensures StepsLeft(j, t') < StepsLeft(j, t)
  {
    var w: nat, e :| Can(j, t, w, e) && t' == Do(j, t, w, e);
    assert RetryOk(j, w, t.workers[w]);
    StepsLeftFall(j, t, w, e);
  }

  /** The event a worker can always take next; a reliable peer answers with the piece. */
  function Forward(j: Job, t: Download, pc: Pc): Event {
    match pc
    case Claimed(_) => MarkShared
    case Marked(_) => MarkLocal
    case Opening(_) => OpenSave
    case Saving(_, base, buffer) => if base + |buffer| < |t.local| then ReadCell else CloseSave
    case Trying(i, _, k) => if k < j.peers then Accept(Piece(j.original, i)) else EndOfPass
    case Writing(_, _, _, payload, done) => if done < |payload| then WriteSome(|payload|) else Publish
    case Published(_) => FinishLocal
    case GivenUp(_) => PublishFailed
    case Failing(_) => FailLocal
    case _ => Pop
  }

  /** A worker that has not stopped always has a step, so a run can only end with all of them stopped. */
  lemma NobodyStuck(j: Job, file0: Bytes, init: seq<int>, t: Download, w: nat)
    requires DownloadInv(j, file0, init, t) && w < |t.workers| && !t.workers[w].Done?
    ensures Can(j, t, w, Forward(j, t, t.workers[w]))
    ensures Step(j, t, Do(j, t, w, Forward(j, t, t.workers[w])))
  {
    var pc := t.workers[w];
    assert RetryOk(j, w, pc);
    if pc.Trying? {
      TryingMoves(j, init, t, w);
    } else {
      OthersMove(j, file0, init, t, w);
    }
  }

  /** Whoever is tried next may answer with the piece; the reliable peer does. */
  lemma TryingMoves(j: Job, init: seq<int>, t: Download, w: nat)
    requires ValidJob(j) && Conserved(j, init, t) && w < |t.workers| && RetryOk(j, w, t.workers[w])
    requires t.workers[w].Trying?
    ensures Can(j, t, w, Forward(j, t, t.workers[w]))
  {
    var pc := t.workers[w];
    HolderFacts(j, init, t, w);
    PiecesPartition(j.original);
    if pc.k < j.peers && j.reliable.Some? && PeerAt(j, w, pc.k) == j.reliable.value.peer {
      ReliableReplies(j, pc.i, Served(PieceRequest(j.fname, pc.i), j.reliable.value.registry, j.reliable.value.disk));
    }
  }

  lemma OthersMove(j: Job, file0: Bytes, init: seq<int>, t: Download, w: nat)
    requires DownloadInv(j, file0, init, t) && w < |t.workers| && !t.workers[w].Done? && !t.workers[w].Trying?
    ensures Can(j, t, w, Forward(j, t, t.workers[w]))
  {
    var pc := t.workers[w];
    assert SaverOk(t, pc) && WriterOk(j, t, pc);
    if Held(pc).Some? {
      HolderFacts(j, init, t, w);
    }
  }

  ghost predicate CanMove(j: Job, t: Download)
    requires j.peers > 0
  {
    exists t' :: Step(j, t, t')
  }

  /** A run either has stopped every worker or can be continued. */
  lemma DoneOrMoving(j: Job, existing: Option<Bytes>, sidecar: seq<int>, run: seq<Download>)
    requires ValidJob(j) && Life(j, existing, sidecar, run)
    ensures AllDone(run[|run| - 1]) || CanMove(j, run[|run| - 1])
  {
    var t := run[|run| - 1];
    LifeKeepsInv(j, existing, sidecar, run, |run| - 1);
    if w :| 0 <= w < |t.workers| && !t.workers[w].Done? {
      NobodyStuck(j, Preallocated(existing, Size(j)), Loaded(sidecar, |j.hashes|), t, w);
    }
  }
}
