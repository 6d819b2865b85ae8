/** One download: worker threads over a shared piece queue, status vectors, output file and sidecar. */
module Transfer {
  import opened Text
  import opened Pieces

  const MAX_RETRIES := 5

  const PENDING := 0
  const DOWNLOADING := 1
  const COMPLETED := 2
  const FAILED := 3

  /** A listed peer that answers every request: its place in the list, its registry and its disk. */
  datatype Seeder = Seeder(peer: nat, registry: map<string, string>, disk: map<string, Bytes>)

  /**
   * What is being fetched. `reliable` is a peer that always answers, when one is assumed; assuming one
   * also assumes that writes to the output file succeed.
   */
  datatype Job = Job(fname: string, original: Bytes, hashes: seq<string>, hash: Bytes -> string, peers: nat,
                     workers: nat, reliable: Option<Seeder>)

  /** The peer shares the file under the name it is asked for. */
  predicate Shares(s: Seeder, fname: string, original: Bytes) {
    && Word(fname) && fname in s.registry && s.registry[fname] in s.disk
    && s.disk[s.registry[fname]] == original
  }

  function NumWorkers(pieces: int, peers: int): int {
    if pieces > 1000 then Min(4, peers) else Min(peers, 8)
  }

  /** The tracker's metadata describe the original file, and at least one peer is listed. */
  ghost predicate ValidJob(j: Job) {
    && j.original != []
    && |j.hashes| == PieceCount(|j.original|)
    && (forall i :: 0 <= i < |j.hashes| ==> j.hashes[i] == j.hash(Piece(j.original, i)))
    && 0 < j.peers && j.workers == NumWorkers(|j.hashes|, j.peers)
    && (j.reliable.Some? ==>
          && j.reliable.value.peer < j.peers
          && Shares(j.reliable.value, j.fname, j.original)
          && |j.hashes| <= MAX_INT)
  }

  /** The peer list rotated by the worker's number. */
  function PeerAt(j: Job, w: nat, k: nat): nat
    requires j.peers > 0
  {
    (w % j.peers + k) % j.peers
  }

  lemma ModOnce(a: nat, m: nat)
    requires m > 0 && a < 2 * m
    ensures a % m == if a < m then a else a - m
  {
    if a >= m {
      assert a == 1 * m + (a - m);
    }
  }

  /** The peer at place `k` of a rotation, without remainders. */
  lemma PeerAtIs(j: Job, w: nat, k: nat)
    requires k < j.peers
    ensures var r := w % j.peers; PeerAt(j, w, k) == if r + k < j.peers then r + k else r + k - j.peers
  {
    ModOnce(w % j.peers + k, j.peers);
  }

  /**
   * Every peer has its own worker as long as there are at most eight, four for more than a thousand
   * pieces; and there are never more workers than that, or than peers.
   */
  lemma OneWorkerEach(j: Job, q: nat)
    requires ValidJob(j) && q < j.peers
    ensures q < (if |j.hashes| > 1000 then 4 else 8) <==> q < j.workers
    ensures PeerAt(j, q, 0) == q
  {
    ModOnce(q, j.peers);
    PeerAtIs(j, q, 0);
  }

  /** After each peer comes the next in the list, and after the last the first. */
  lemma NextPeer(j: Job, w: nat, k: nat)
    requires k + 1 < j.peers
    ensures PeerAt(j, w, k + 1) == if PeerAt(j, w, k) + 1 < j.peers then PeerAt(j, w, k) + 1 else 0
  {
    PeerAtIs(j, w, k);
    PeerAtIs(j, w, k + 1);
  }

  /** No two workers of a download start with the same peer. */
  lemma StartsApart(j: Job, v: nat, w: nat)
    requires ValidJob(j) && v < w < j.workers
    ensures PeerAt(j, v, 0) != PeerAt(j, w, 0)
  {
    OneWorkerEach(j, v);
    OneWorkerEach(j, w);
  }

  /** Where a save returns to: the retries of a piece, or the top of the worker's loop. */
  datatype After = Try(i: nat) | Loop

  /** A worker between two atomic steps. */
  datatype Pc =
    | Fetch
    | Claimed(i: nat)
    | Marked(i: nat)
    | Opening(after: After)
    | Saving(after: After, base: nat, buffer: seq<int>)
    | Trying(i: nat, attempt: nat, k: nat)
    | Writing(i: nat, attempt: nat, k: nat, payload: Bytes, done: nat)
    | Published(i: nat)
    | GivenUp(i: nat)
    | Failing(i: nat)
    | Done

  datatype Download = Download(queue: seq<nat>, local: seq<int>, shared: seq<int>, completed: int,
                            file: Bytes, sidecar: seq<int>, workers: seq<Pc>)

  /** Bytes written at an offset of a file; a gap before them reads as zeros. */
  function Overlay<T>(f: seq<T>, off: nat, data: seq<T>, zero: T): (r: seq<T>)
    ensures |r| == if |f| < off + |data| then off + |data| else |f|
    ensures forall k :: 0 <= k < |r| ==>
      r[k] == if off <= k < off + |data| then data[k - off] else if k < |f| then f[k] else zero
  {
    var base := if |f| < off then f + seq(off - |f|, _ => zero) else f;
    base[..off] + data + (if off + |data| < |base| then base[off + |data|..] else [])
  }

  /** What happens to a worker next: its own code, the peers, the file system or the scheduler. */
  datatype Event =
    | Pop            // take the front of the queue, or stop when it is empty
    | MarkShared     // status 1 in the shared record
    | MarkLocal      // status 1 in the worker's vector
    | OpenSave       // the sidecar is opened and truncated
    | OpenFails      // the sidecar cannot be opened; the save is skipped
    | ReadCell       // one status is read into the stream buffer
    | Flush          // the stream buffer reaches the file
    | CloseSave
    | Miss(reply: Option<Bytes>) // no socket, address or connection, or no frame within the cap: next peer
    | Reject(p: Bytes)           // hash mismatch, or no output file to write: next peer, one attempt gone
    | Accept(p: Bytes)
    | WriteSome(m: nat)
    | WriteFails
    | Publish        // status 2 and the counter, in the shared record
    | FinishLocal
    | EndOfPass      // every peer was tried
    | PublishFailed
    | FailLocal

  function NextPc(a: After): Pc {
    match a
    case Try(i) => Trying(i, 0, 0)
    case Loop => Fetch
  }

  /** What asking a peer for a piece may yield: anything, but the reliable peer serves the request. */
  predicate MayReply(j: Job, peer: nat, i: nat, reply: Option<Bytes>) {
    j.reliable.Some? && j.reliable.value.peer == peer ==>
      reply == Served(PieceRequest(j.fname, i), j.reliable.value.registry, j.reliable.value.disk)
  }

  /** The event can happen to worker `w`. A received payload that hashes right is assumed to be the piece. */
  ghost predicate Can(j: Job, t: Download, w: nat, e: Event)
    requires j.peers > 0
  {
    && w < |t.workers|
    && var pc := t.workers[w];
      match e
      case Pop => pc.Fetch?
      case MarkShared => pc.Claimed? && pc.i < |t.shared|
      case MarkLocal => pc.Marked? && pc.i < |t.local|
      case OpenSave => pc.Opening?
      case OpenFails => pc.Opening?
      case ReadCell => pc.Saving? && pc.base + |pc.buffer| < |t.local|
      case Flush => pc.Saving? && pc.buffer != []
      case CloseSave => pc.Saving? && pc.base + |pc.buffer| == |t.local|
      case Miss(reply) =>
        && pc.Trying? && pc.k < j.peers && MayReply(j, PeerAt(j, w, pc.k), pc.i, reply)
        && (reply.None? || |reply.value| > PIECE_SIZE)
      case Reject(p) =>
        && pc.Trying? && pc.k < j.peers && pc.i < |j.hashes|
        && MayReply(j, PeerAt(j, w, pc.k), pc.i, Some(p)) && |p| <= PIECE_SIZE
        && (j.hash(p) != j.hashes[pc.i] || j.reliable.None?)
      case Accept(p) =>
        && pc.Trying? && pc.k < j.peers && pc.i < |j.hashes|
        && MayReply(j, PeerAt(j, w, pc.k), pc.i, Some(p)) && |p| <= PIECE_SIZE
        && j.hash(p) == j.hashes[pc.i] && p == Piece(j.original, pc.i)
      case WriteSome(m) => pc.Writing? && pc.done < m <= |pc.payload|
      case WriteFails => pc.Writing? && j.reliable.None?
      case Publish => pc.Writing? && pc.done == |pc.payload| && pc.i < |t.shared|
      case FinishLocal => pc.Published? && pc.i < |t.local|
      case EndOfPass => pc.Trying? && pc.k == j.peers
      case PublishFailed => pc.GivenUp? && pc.i < |t.shared|
      case FailLocal => pc.Failing? && pc.i < |t.local|
  }

  function At(t: Download, w: nat, pc: Pc): Download
    requires w < |t.workers|
  {
    t.(workers := t.workers[w := pc])
  }

  ghost function Do(j: Job, t: Download, w: nat, e: Event): Download
    requires j.peers > 0 && Can(j, t, w, e)
  {
    var pc := t.workers[w];
    match e
    case Pop =>
      if t.queue == [] then At(t, w, Done) else At(t, w, Claimed(t.queue[0])).(queue := t.queue[1..])
    case MarkShared => At(t, w, Marked(pc.i)).(shared := t.shared[pc.i := DOWNLOADING])
    case MarkLocal => At(t, w, Opening(Try(pc.i))).(local := t.local[pc.i := DOWNLOADING])
    case OpenSave => At(t, w, Saving(pc.after, 0, [])).(sidecar := [])
    case OpenFails => At(t, w, NextPc(pc.after))
    case ReadCell => At(t, w, Saving(pc.after, pc.base, pc.buffer + [t.local[pc.base + |pc.buffer|]]))
    case Flush =>
      At(t, w, Saving(pc.after, pc.base + |pc.buffer|, [])).(sidecar := Overlay(t.sidecar, pc.base, pc.buffer, PENDING))
    case CloseSave =>
      var cells := if pc.buffer == [] then t.sidecar else Overlay(t.sidecar, pc.base, pc.buffer, PENDING);
      At(t, w, NextPc(pc.after)).(sidecar := cells)
    case Miss(_) => At(t, w, Trying(pc.i, pc.attempt, pc.k + 1))
    case Reject(_) => At(t, w, Trying(pc.i, pc.attempt + 1, pc.k + 1))
    case Accept(p) => At(t, w, Writing(pc.i, pc.attempt, pc.k, p, 0))
    case WriteSome(m) =>
      At(t, w, pc.(done := m)).(file := Overlay(t.file, Pieces.Start(pc.i), pc.payload[..m], 0))
    case WriteFails => At(t, w, Trying(pc.i, pc.attempt + 1, pc.k + 1))
    case Publish =>
      At(t, w, Published(pc.i)).(shared := t.shared[pc.i := COMPLETED], completed := t.completed + 1)
    case FinishLocal => At(t, w, Opening(Loop)).(local := t.local[pc.i := COMPLETED])
    case EndOfPass =>
      At(t, w, if pc.attempt + 1 < MAX_RETRIES then Trying(pc.i, pc.attempt + 1, 0) else GivenUp(pc.i))
    case PublishFailed => At(t, w, Failing(pc.i)).(shared := t.shared[pc.i := FAILED])
    case FailLocal => At(t, w, Opening(Loop)).(local := t.local[pc.i := FAILED])
  }

  ghost predicate Step(j: Job, t: Download, t': Download)
    requires j.peers > 0
  {
    exists w: nat, e :: Can(j, t, w, e) && t' == Do(j, t, w, e)
  }

  /** The pieces before `n` that a loaded status vector does not mark complete, in order. */
  function Pending(init: seq<int>, n: nat): (q: seq<nat>)
    requires n <= |init|
    ensures forall i :: i in q <==> 0 <= i < n && init[i] != COMPLETED
    ensures forall a, b :: 0 <= a < b < |q| ==> q[a] != q[b]
  {
    if n == 0 then [] else Pending(init, n - 1) + (if init[n - 1] != COMPLETED then [n - 1] else [])
  }

  /** The workers start on a preallocated file with the statuses a sidecar left behind. */
  function Begin(j: Job, file: Bytes, init: seq<int>, sidecar: seq<int>): Download {
    Download(Pending(init, |init|), init, init, 0, file, sidecar, seq(j.workers, _ => Fetch))
  }

  ghost predicate WorkersRun(j: Job, file: Bytes, init: seq<int>, sidecar: seq<int>, run: seq<Download>)
    requires j.peers > 0
  {
    && run != [] && run[0] == Begin(j, file, init, sidecar)
    && forall i :: 0 < i < |run| ==> StepAt(j, run, i)
  }

  ghost predicate StepAt(j: Job, run: seq<Download>, i: int)
    requires j.peers > 0 && 0 < i < |run|
  {
    Step(j, run[i - 1], run[i])
  }

  predicate AllDone(t: Download) {
    forall w :: 0 <= w < |t.workers| ==> t.workers[w].Done?
  }

  // ---------- Who has a piece ----------

  function Held(pc: Pc): Option<nat> {
    match pc
    case Claimed(i) => Some(i)
    case Marked(i) => Some(i)
    case Opening(Try(i)) => Some(i)
    case Saving(Try(i), _, _) => Some(i)
    case Trying(i, _, _) => Some(i)
    case Writing(i, _, _, _, _) => Some(i)
    case Published(i) => Some(i)
    case GivenUp(i) => Some(i)
    case Failing(i) => Some(i)
    case _ => None
  }

  ghost predicate Holds(ws: seq<Pc>, i: nat) {
    exists w :: 0 <= w < |ws| && Held(ws[w]) == Some(i)
  }

  /** The two statuses of a held piece, as its holder's program point determines them. */
  predicate HeldStatus(pc: Pc, loaded: int, local: int, shared: int) {
    match pc
    case Claimed(_) => local == shared == loaded
    case Marked(_) => local == loaded && shared == DOWNLOADING
    case Published(_) => local == DOWNLOADING && shared == COMPLETED
    case Failing(_) => local == DOWNLOADING && shared == FAILED
    case _ => local == shared == DOWNLOADING
  }

  predicate Finished(j: Job, init: seq<int>, t: Download, i: nat)
    requires i < |init| == |t.local| == |t.shared|
  {
    && t.local[i] == t.shared[i]
    && (t.local[i] == COMPLETED || (t.local[i] == FAILED && init[i] != COMPLETED && j.reliable.None?))
  }

  predicate Shape(j: Job, init: seq<int>, t: Download) {
    |init| == |j.hashes| == |t.local| == |t.shared| && |t.workers| == j.workers
  }

  predicate QueueOk(init: seq<int>, t: Download)
    requires |init| == |t.local| == |t.shared|
  {
    && (forall a, b :: 0 <= a < b < |t.queue| ==> t.queue[a] != t.queue[b])
    && (forall a :: 0 <= a < |t.queue| ==>
          var i := t.queue[a];
          i < |init| && init[i] != COMPLETED && t.local[i] == t.shared[i] == init[i])
  }

  predicate HolderOk(init: seq<int>, t: Download, pc: Pc)
    requires |init| == |t.local| == |t.shared|
  {
    Held(pc).Some? ==>
      var i := Held(pc).value;
      i < |init| && init[i] != COMPLETED && i !in t.queue && HeldStatus(pc, init[i], t.local[i], t.shared[i])
  }

  /**
   * Work conservation: every piece not restored as complete is in the queue, in one worker's hand, or
   * finished, and in only one of these.
   */
  ghost predicate Conserved(j: Job, init: seq<int>, t: Download) {
    && Shape(j, init, t)
    && QueueOk(init, t)
    && (forall w :: 0 <= w < |t.workers| ==> HolderOk(init, t, t.workers[w]))
    && (forall v, w :: 0 <= v < w < |t.workers| && Held(t.workers[v]).Some? ==>
          Held(t.workers[v]) != Held(t.workers[w]))
    && (forall i :: 0 <= i < |init| && i !in t.queue && !Holds(t.workers, i) ==> Finished(j, init, t, i))
    && (forall w :: 0 <= w < |t.workers| && t.workers[w].Done? ==> t.queue == [])
  }

  lemma BeginConserved(j: Job, file: Bytes, init: seq<int>, sidecar: seq<int>)
    requires |init| == |j.hashes|
    ensures Conserved(j, init, Begin(j, file, init, sidecar))
  {
    var t := Begin(j, file, init, sidecar);
    forall a | 0 <= a < |t.queue| ensures t.queue[a] < |init| && init[t.queue[a]] != COMPLETED {
      assert t.queue[a] in Pending(init, |init|);
    }
  }

  /** A worker moved on with the same piece or none; nothing but its own piece's statuses changed. */
  ghost predicate SameHold(init: seq<int>, t: Download, t': Download, w: nat) {
    && w < |t.workers| == |t'.workers| && |t'.local| == |t.local| && |t'.shared| == |t.shared|
    && t'.queue == t.queue && t'.workers == t.workers[w := t'.workers[w]]
    && Held(t'.workers[w]) == Held(t.workers[w])
    && !t'.workers[w].Done?
    && forall i :: 0 <= i < |t.local| && i < |t.shared| && Held(t.workers[w]) != Some(i) ==>
         t'.local[i] == t.local[i] && t'.shared[i] == t.shared[i]
  }

  lemma SameHoldConserved(j: Job, init: seq<int>, t: Download, t': Download, w: nat)
    requires Conserved(j, init, t) && SameHold(init, t, t', w)
    requires HolderOk(init, t', t'.workers[w])
    ensures Conserved(j, init, t')
  {
    forall v | 0 <= v < |t.workers| ensures Held(t'.workers[v]) == Held(t.workers[v]) {}
    forall i: nat | Holds(t.workers, i) ensures Holds(t'.workers, i) {
      var v :| 0 <= v < |t.workers| && Held(t.workers[v]) == Some(i);
      assert Held(t'.workers[v]) == Some(i);
    }
    forall a | 0 <= a < |t.queue| ensures Held(t.workers[w]) != Some(t.queue[a]) {
      assert HolderOk(init, t, t.workers[w]);
      assert t.queue[a] in t.queue;
    }
    forall v | 0 <= v < |t.workers| ensures HolderOk(init, t', t'.workers[v]) {
      assert HolderOk(init, t, t.workers[v]);
    }
    forall i | 0 <= i < |init| && i !in t'.queue && !Holds(t'.workers, i) ensures Finished(j, init, t', i) {
      assert Held(t.workers[w]) != Some(i);
    }
  }

  /** A worker that finds the queue empty stops. */
  lemma StopConserved(j: Job, init: seq<int>, t: Download, w: nat)
    requires j.peers > 0 && Conserved(j, init, t) && Can(j, t, w, Pop) && t.queue == []
    ensures Conserved(j, init, Do(j, t, w, Pop))
  {
    var t' := Do(j, t, w, Pop);
    forall i: nat | Holds(t.workers, i) ensures Holds(t'.workers, i) {
      var v :| 0 <= v < |t.workers| && Held(t.workers[v]) == Some(i);
      assert Held(t'.workers[v]) == Some(i);
    }
  }

  lemma TakeKeepsHolders(j: Job, init: seq<int>, t: Download, w: nat)
    requires j.peers > 0 && Conserved(j, init, t) && Can(j, t, w, Pop) && t.queue != []
    ensures var t' := Do(j, t, w, Pop);
      && Shape(j, init, t') && QueueOk(init, t')
      && (forall v :: 0 <= v < |t'.workers| ==> HolderOk(init, t', t'.workers[v]))
  {
    var t', q := Do(j, t, w, Pop), t.queue[0];
    assert q in t.queue && q !in t'.queue;
    forall v | 0 <= v < |t.workers| ensures HolderOk(init, t', t'.workers[v]) {
      assert HolderOk(init, t, t.workers[v]);
    }
  }

  lemma TakeKeepsApart(j: Job, init: seq<int>, t: Download, w: nat)
    requires j.peers > 0 && Conserved(j, init, t) && Can(j, t, w, Pop) && t.queue != []
    ensures var t' := Do(j, t, w, Pop);
      forall u, v :: 0 <= u < v < |t'.workers| && Held(t'.workers[u]).Some? ==>
        Held(t'.workers[u]) != Held(t'.workers[v])
  {
    var t', q := Do(j, t, w, Pop), t.queue[0];
    assert q in t.queue;
    forall v | 0 <= v < |t.workers| ensures Held(t.workers[v]) != Some(q) {
      assert HolderOk(init, t, t.workers[v]);
    }
  }

  lemma PopConserved(j: Job, init: seq<int>, t: Download, w: nat)
    requires j.peers > 0 && Conserved(j, init, t) && Can(j, t, w, Pop)
    ensures Conserved(j, init, Do(j, t, w, Pop))
  {
    if t.queue == [] {
      StopConserved(j, init, t, w);
    } else {
      var t', q := Do(j, t, w, Pop), t.queue[0];
      TakeKeepsHolders(j, init, t, w);
      TakeKeepsApart(j, init, t, w);
      forall i | 0 <= i < |init| && i !in t'.queue && !Holds(t'.workers, i) ensures Finished(j, init, t', i) {
        TakeLeavesFinished(j, init, t, w, i);
      }
    }
  }

  lemma TakeLeavesFinished(j: Job, init: seq<int>, t: Download, w: nat, i: nat)
    requires j.peers > 0 && Conserved(j, init, t) && Can(j, t, w, Pop) && t.queue != []
    requires var t' := Do(j, t, w, Pop); i < |init| && i !in t'.queue && !Holds(t'.workers, i)
    ensures Finished(j, init, Do(j, t, w, Pop), i)
  {
    var t', q := Do(j, t, w, Pop), t.queue[0];
    assert Held(t'.workers[w]) == Some(q);
    forall v | 0 <= v < |t.workers| ensures Held(t.workers[v]) != Some(i) {
      assert v != w ==> Held(t'.workers[v]) != Some(i);
    }
    assert !Holds(t.workers, i);
    assert t.queue == [q] + t'.queue;
    assert Finished(j, init, t, i);
  }

  predicate Releases(j: Job, e: Event) {
    e.FinishLocal? || (e.FailLocal? && j.reliable.None?)
  }

  lemma ReleaseKeepsHolders(j: Job, init: seq<int>, t: Download, w: nat, e: Event)
    requires j.peers > 0 && Conserved(j, init, t) && Can(j, t, w, e) && Releases(j, e)
    ensures var t' := Do(j, t, w, e);
      Shape(j, init, t') && forall v :: 0 <= v < |t'.workers| ==> HolderOk(init, t', t'.workers[v])
  {
    var t', i := Do(j, t, w, e), t.workers[w].i;
    assert HolderOk(init, t, t.workers[w]);
    forall v | 0 <= v < |t.workers| ensures HolderOk(init, t', t'.workers[v]) {
      assert HolderOk(init, t, t.workers[v]);
      assert v != w ==> Held(t.workers[v]) != Some(i);
    }
  }

  lemma ReleaseKeepsQueue(j: Job, init: seq<int>, t: Download, w: nat, e: Event)
    requires j.peers > 0 && Conserved(j, init, t) && Can(j, t, w, e) && Releases(j, e)
    ensures QueueOk(init, Do(j, t, w, e))
  {
    var i := t.workers[w].i;
    assert HolderOk(init, t, t.workers[w]);
    forall a | 0 <= a < |t.queue| ensures t.queue[a] != i {
      assert t.queue[a] in t.queue;
    }
  }

  lemma ReleaseFinishes(j: Job, init: seq<int>, t: Download, w: nat, e: Event, k: nat)
    requires j.peers > 0 && Conserved(j, init, t) && Can(j, t, w, e) && Releases(j, e)
    requires var t' := Do(j, t, w, e); k < |init| && k !in t'.queue && !Holds(t'.workers, k)
    ensures Finished(j, init, Do(j, t, w, e), k)
  {
    var t', i := Do(j, t, w, e), t.workers[w].i;
    assert HolderOk(init, t, t.workers[w]);
    if k != i {
      forall v | 0 <= v < |t.workers| ensures Held(t.workers[v]) != Some(k) {
        assert Held(t'.workers[v]) != Some(k);
      }
    }
  }

  /** The holder of a piece finishes it, one way or the other. */
  lemma ReleaseConserved(j: Job, init: seq<int>, t: Download, w: nat, e: Event)
    requires j.peers > 0 && Conserved(j, init, t) && Can(j, t, w, e) && Releases(j, e)
    ensures Conserved(j, init, Do(j, t, w, e))
  {
    var t' := Do(j, t, w, e);
    ReleaseKeepsHolders(j, init, t, w, e);
    ReleaseKeepsQueue(j, init, t, w, e);
    assert t'.workers == t.workers[w := Opening(Loop)];
    assert Held(t'.workers[w]).None?;
    forall k | 0 <= k < |init| && k !in t'.queue && !Holds(t'.workers, k) ensures Finished(j, init, t', k) {
      ReleaseFinishes(j, init, t, w, e, k);
    }
  }
}
