/** What every interleaving of a download keeps, and how it ends. */
module DownloadSafety {
  import opened Text
  import opened Pieces
  import opened Transfer

  // ---------- Slots of the output file ----------

  /** The bytes of one piece's slot; the slot is where the original has the piece. */
  function Slot(j: Job, file: Bytes, i: nat): Bytes
    requires |file| >= |j.original| && i < PieceCount(|j.original|)
  {
    file[Start(i)..End(i, |j.original|)]
  }

  predicate SlotOk(j: Job, file: Bytes, i: nat) {
    |file| >= |j.original| && i < PieceCount(|j.original|) && Slot(j, file, i) == Piece(j.original, i)
  }

  /** A write inside a file leaves every part of the file outside it alone. */
  lemma OverlayApart(file: Bytes, off: nat, data: Bytes, a: nat, b: nat)
    requires off + |data| <= |file| && a <= b <= |file| && (b <= off || off + |data| <= a)
    ensures |Overlay(file, off, data, 0)| == |file|
    ensures Overlay(file, off, data, 0)[a..b] == file[a..b]
  {
  }

  /** Where a slot is, and that another one is elsewhere. */
  lemma SlotBounds(j: Job, i: nat, k: nat)
    requires i < PieceCount(|j.original|) && k < PieceCount(|j.original|) && k != i
    ensures Start(i) + |Piece(j.original, i)| == End(i, |j.original|) <= |j.original|
    ensures Start(k) + |Piece(j.original, k)| == End(k, |j.original|) <= |j.original|
    ensures End(k, |j.original|) <= Start(i) || End(i, |j.original|) <= Start(k)
  {
    SlotInside(|j.original|, i);
    SlotInside(|j.original|, k);
    if k < i {
      Multiples(k, i);
    } else {
      Multiples(i, k);
    }
  }

  lemma SlotInside(size: nat, i: nat)
    requires i < PieceCount(size)
    ensures Start(i) < size
  {
  }

  lemma Multiples(i: nat, k: nat)
    requires i < k
    ensures (i + 1) * PIECE_SIZE <= k * PIECE_SIZE
  {
  }

  /** A write of at most a piece at one slot leaves the other slots alone. */
  lemma OtherSlot(j: Job, file: Bytes, i: nat, data: Bytes, k: nat)
    requires |file| >= |j.original| && i < PieceCount(|j.original|) && k < PieceCount(|j.original|) && k != i
    requires |data| <= |Piece(j.original, i)|
    ensures |Overlay(file, Start(i), data, 0)| == |file|
    ensures Slot(j, Overlay(file, Start(i), data, 0), k) == Slot(j, file, k)
  {
    SlotBounds(j, i, k);
    OverlayApart(file, Start(i), data, Start(k), End(k, |j.original|));
  }

  lemma OwnSlot(j: Job, file: Bytes, i: nat, data: Bytes)
    requires |file| >= |j.original| && i < PieceCount(|j.original|)
    requires |data| <= |Piece(j.original, i)|
    ensures Start(i) + |data| <= |file| == |Overlay(file, Start(i), data, 0)|
    ensures Overlay(file, Start(i), data, 0)[Start(i)..Start(i) + |data|] == data
  {
    SlotInside(|j.original|, i);
  }

  /** A file of the right length whose slots are all right is the original. */
  lemma {:induction false} AllSlotsOk(j: Job, file: Bytes, n: nat)
    requires n <= PieceCount(|j.original|) && |file| >= |j.original|
    requires forall i :: 0 <= i < n ==> SlotOk(j, file, i)
    ensures file[..Min(Start(n), |j.original|)] == j.original[..Min(Start(n), |j.original|)]
  {
    if n > 0 {
      AllSlotsOk(j, file, n - 1);
      assert SlotOk(j, file, n - 1);
      SlotInside(|j.original|, n - 1);
      SamePrefix(file, j.original, Start(n - 1), End(n - 1, |j.original|));
    }
  }

  lemma SamePrefix(x: Bytes, y: Bytes, a: nat, b: nat)
    requires a <= b <= |x| && b <= |y| && x[..a] == y[..a] && x[a..b] == y[a..b]
    ensures x[..b] == y[..b]
  {
    assert x[..b] == x[..a] + x[a..b] && y[..b] == y[..a] + y[a..b];
  }

  // ---------- Three more invariants ----------

  ghost predicate WriterOk(j: Job, t: Download, pc: Pc) {
    pc.Writing? ==>
      && pc.payload == Piece(j.original, pc.i) && pc.done <= |pc.payload|
      && Start(pc.i) + pc.done <= |t.file|
      && t.file[Start(pc.i)..Start(pc.i) + pc.done] == pc.payload[..pc.done]
  }

  /** Restored slots are as they were at the start; slots of pieces fetched by this run are right. */
  ghost predicate DiskOk(j: Job, file0: Bytes, init: seq<int>, t: Download)
    requires |init| == |t.shared| == PieceCount(|j.original|)
  {
    && |t.file| == |file0| >= |j.original|
    && (forall i :: 0 <= i < |init| && init[i] == COMPLETED ==> Slot(j, t.file, i) == Slot(j, file0, i))
    && (forall i :: 0 <= i < |init| && init[i] != COMPLETED && t.shared[i] == COMPLETED ==> SlotOk(j, t.file, i))
    && (forall w :: 0 <= w < |t.workers| ==> WriterOk(j, t, t.workers[w]))
  }

  predicate SaverOk(t: Download, pc: Pc) {
    pc.Saving? ==>
      && pc.base + |pc.buffer| <= |t.local|
      && forall c :: 0 <= c < |pc.buffer| && pc.buffer[c] == COMPLETED ==> t.local[pc.base + c] == COMPLETED
  }

  /** Whatever any sidecar write, finished or not, has put on disk or in a buffer: a 2 was earned. */
  predicate SidecarOk(t: Download) {
    && (forall k :: 0 <= k < |t.sidecar| && k < |t.local| && t.sidecar[k] == COMPLETED ==> t.local[k] == COMPLETED)
    && (forall w :: 0 <= w < |t.workers| ==> SaverOk(t, t.workers[w]))
  }

  function CountDone(xs: seq<int>): nat {
    if xs == [] then 0 else (if xs[0] == COMPLETED then 1 else 0) + CountDone(xs[1..])
  }

  lemma {:induction false} CountUpdate(xs: seq<int>, i: nat, v: int)
    requires i < |xs|
    ensures CountDone(xs[i := v]) == CountDone(xs)
      + (if v == COMPLETED then 1 else 0) - (if xs[i] == COMPLETED then 1 else 0)
  {
    if i > 0 {
      assert xs[i := v][1..] == xs[1..][i - 1 := v];
      CountUpdate(xs[1..], i - 1, v);
    } else {
      assert xs[i := v][1..] == xs[1..];
    }
  }

  /** Where a peer stands in a worker's rotation. */
  function Place(j: Job, w: nat, q: nat): nat
    requires q < j.peers
  {
    var r := w % j.peers;
    if q >= r then q - r else q + j.peers - r
  }

  lemma PlaceRight(j: Job, w: nat, q: nat)
    requires q < j.peers
    ensures Place(j, w, q) < j.peers && PeerAt(j, w, Place(j, w, q)) == q
  {
    if q < w % j.peers {
      ModAdd(q, j.peers);
    }
  }

  lemma ModAdd(a: nat, m: nat)
    requires a < m
    ensures (a + m) % m == a
  {
    assert a + m == 1 * m + a;
  }

  /** A pass never runs past a reliable peer, so no piece is given up. */
  predicate RetryOk(j: Job, w: nat, pc: Pc)
    requires j.peers > 0 && (j.reliable.Some? ==> j.reliable.value.peer < j.peers)
  {
    && (pc.Trying? ==> pc.k <= j.peers && (j.reliable.Some? ==> pc.k <= Place(j, w, j.reliable.value.peer)))
    && (pc.Writing? ==> pc.k < j.peers)
    && (pc.GivenUp? || pc.Failing? ==> j.reliable.None?)
  }

  ghost predicate DownloadInv(j: Job, file0: Bytes, init: seq<int>, t: Download) {
    && ValidJob(j)
    && Conserved(j, init, t)
    && DiskOk(j, file0, init, t)
    && SidecarOk(t)
    && t.completed == CountDone(t.shared) - CountDone(init)
    && forall w :: 0 <= w < |t.workers| ==> RetryOk(j, w, t.workers[w])
  }

  // ---------- One step ----------

  lemma HolderFacts(j: Job, init: seq<int>, t: Download, w: nat)
    requires Conserved(j, init, t) && w < |t.workers| && Held(t.workers[w]).Some?
    ensures var i := Held(t.workers[w]).value;
      && i < |init| && init[i] != COMPLETED && i !in t.queue
      && HeldStatus(t.workers[w], init[i], t.local[i], t.shared[i])
  {
    assert HolderOk(init, t, t.workers[w]);
  }

  lemma StepConserved(j: Job, init: seq<int>, t: Download, w: nat, e: Event)
    requires j.peers > 0 && Conserved(j, init, t) && Can(j, t, w, e)
    requires e.FailLocal? ==> j.reliable.None?
    ensures Conserved(j, init, Do(j, t, w, e))
  {
    var t' := Do(j, t, w, e);
    if e.Pop? {
      PopConserved(j, init, t, w);
    } else if e.FinishLocal? || e.FailLocal? {
      ReleaseConserved(j, init, t, w, e);
    } else {
      assert HolderOk(init, t, t.workers[w]);
      assert SameHold(init, t, t', w);
      SameHoldConserved(j, init, t, t', w);
    }
  }

  /** The reliable peer serves the very bytes that were hashed, so asking it never fails. */
  lemma ReliableReplies(j: Job, i: nat, reply: Option<Bytes>)
    requires ValidJob(j) && j.reliable.Some? && i < |j.hashes| && MayReply(j, j.reliable.value.peer, i, reply)
    ensures reply == Some(Piece(j.original, i)) && |Piece(j.original, i)| <= PIECE_SIZE
    ensures j.hash(reply.value) == j.hashes[i]
  {
    HonestPeerAnswers(j.fname, i, j.reliable.value.registry, j.reliable.value.disk);
    PiecesPartition(j.original);
  }

  /** Neither a missing nor a wrong reply can come from the reliable peer. */
  lemma ReliableAnswers(j: Job, i: nat, reply: Option<Bytes>)
    requires ValidJob(j) && j.reliable.Some? && i < |j.hashes| && MayReply(j, j.reliable.value.peer, i, reply)
    ensures reply.Some? && |reply.value| <= PIECE_SIZE && j.hash(reply.value) == j.hashes[i]
  {
    ReliableReplies(j, i, reply);
  }

  /** Whatever a peer sends is dealt with: it is no frame within the cap, or wrong, or the piece. */
  lemma EveryReplyHandled(j: Job, init: seq<int>, t: Download, w: nat, reply: Option<Bytes>)
    requires ValidJob(j) && Conserved(j, init, t) && w < |t.workers| && t.workers[w].Trying?
    requires t.workers[w].k < j.peers && MayReply(j, PeerAt(j, w, t.workers[w].k), t.workers[w].i, reply)
    requires reply.Some? && j.hash(reply.value) == j.hashes[Held(t.workers[w]).value]
             ==> reply.value == Piece(j.original, t.workers[w].i)
    ensures Can(j, t, w, Miss(reply))
         || (reply.Some? && (Can(j, t, w, Reject(reply.value)) || Can(j, t, w, Accept(reply.value))))
  {
    HolderFacts(j, init, t, w);
  }

  /** Nobody but the reliable peer need answer, and without one any write and any save may fail. */
  lemma AnythingMayFail(j: Job, t: Download, w: nat)
    requires ValidJob(j) && w < |t.workers|
    ensures var pc := t.workers[w];
      && (pc.Trying? && pc.k < j.peers && (j.reliable.Some? ==> PeerAt(j, w, pc.k) != j.reliable.value.peer) ==>
            Can(j, t, w, Miss(None)))
      && (pc.Writing? && j.reliable.None? ==> Can(j, t, w, WriteFails))
      && (pc.Opening? ==> Can(j, t, w, OpenFails))
  {
  }

  lemma ReliableNotSkipped(j: Job, init: seq<int>, t: Download, w: nat, e: Event)
    requires ValidJob(j) && j.reliable.Some? && Can(j, t, w, e) && Conserved(j, init, t) && (e.Miss? || e.Reject?)
    ensures PeerAt(j, w, t.workers[w].k) != j.reliable.value.peer
  {
    var pc := t.workers[w];
    if PeerAt(j, w, pc.k) == j.reliable.value.peer {
      HolderFacts(j, init, t, w);
      ReliableAnswers(j, pc.i, if e.Miss? then e.reply else Some(e.p));
    }
  }

  lemma StepRetry(j: Job, init: seq<int>, t: Download, w: nat, e: Event)
    requires ValidJob(j) && Can(j, t, w, e) && RetryOk(j, w, t.workers[w]) && Conserved(j, init, t)
    ensures RetryOk(j, w, Do(j, t, w, e).workers[w])
    ensures e.EndOfPass? || e.PublishFailed? || e.FailLocal? ==> j.reliable.None?
  {
    if j.reliable.Some? && (e.Miss? || e.Reject?) {
      ReliableNotYet(j, init, t, w, e);
      NextRetry(j, t, w, e);
    } else {
      OtherRetry(j, t, w, e);
    }
  }

  lemma NextRetry(j: Job, t: Download, w: nat, e: Event)
    requires ValidJob(j) && Can(j, t, w, e) && (e.Miss? || e.Reject?) && j.reliable.Some?
    requires t.workers[w].k < Place(j, w, j.reliable.value.peer)
    ensures RetryOk(j, w, Do(j, t, w, e).workers[w])
  {
  }

  lemma OtherRetry(j: Job, t: Download, w: nat, e: Event)
    requires ValidJob(j) && Can(j, t, w, e) && RetryOk(j, w, t.workers[w])
    requires j.reliable.Some? ==> !e.Miss? && !e.Reject?
    ensures RetryOk(j, w, Do(j, t, w, e).workers[w])
    ensures e.EndOfPass? || e.PublishFailed? || e.FailLocal? ==> j.reliable.None?
  {
    if j.reliable.Some? {
      PlaceRight(j, w, j.reliable.value.peer);
    }
  }

  lemma ReliableNotYet(j: Job, init: seq<int>, t: Download, w: nat, e: Event)
    requires ValidJob(j) && Can(j, t, w, e) && RetryOk(j, w, t.workers[w]) && Conserved(j, init, t)
    requires j.reliable.Some? && (e.Miss? || e.Reject?)
    ensures t.workers[w].k < Place(j, w, j.reliable.value.peer)
  {
    PlaceRight(j, w, j.reliable.value.peer);
    ReliableNotSkipped(j, init, t, w, e);
  }

  lemma StepCount(j: Job, init: seq<int>, t: Download, w: nat, e: Event)
    requires j.peers > 0 && Conserved(j, init, t) && Can(j, t, w, e)
    requires t.completed == CountDone(t.shared) - CountDone(init)
    ensures Do(j, t, w, e).completed == CountDone(Do(j, t, w, e).shared) - CountDone(init)
  {
    if Held(t.workers[w]).Some? {
      HolderFacts(j, init, t, w);
    }
    match e
    case MarkShared => CountUpdate(t.shared, t.workers[w].i, DOWNLOADING);
    case Publish => CountUpdate(t.shared, t.workers[w].i, COMPLETED);
    case PublishFailed => CountUpdate(t.shared, t.workers[w].i, FAILED);
    case _ =>
  }

  /** A local status 2 is never taken back. */
  lemma StepKeepsDone(j: Job, init: seq<int>, t: Download, w: nat, e: Event)
    requires j.peers > 0 && Conserved(j, init, t) && Can(j, t, w, e)
    ensures |Do(j, t, w, e).local| == |t.local|
    ensures forall k :: 0 <= k < |t.local| && t.local[k] == COMPLETED ==> Do(j, t, w, e).local[k] == COMPLETED
  {
    if Held(t.workers[w]).Some? {
      HolderFacts(j, init, t, w);
    }
  }

  lemma StepSidecar(j: Job, init: seq<int>, t: Download, w: nat, e: Event)
    requires j.peers > 0 && Conserved(j, init, t) && Can(j, t, w, e) && SidecarOk(t)
    ensures SidecarOk(Do(j, t, w, e))
  {
    var t' := Do(j, t, w, e);
    StepKeepsDone(j, init, t, w, e);
    assert SaverOk(t, t.workers[w]);
    OwnSaver(j, t, w, e);
    CellsEarned(j, t, w, e);
    forall v | 0 <= v < |t'.workers| ensures SaverOk(t', t'.workers[v]) {
      assert SaverOk(t, t.workers[v]);
    }
  }

  predicate DoneStays(t: Download, t': Download) {
    && |t'.local| == |t.local|
    && forall k :: 0 <= k < |t.local| && t.local[k] == COMPLETED ==> t'.local[k] == COMPLETED
  }

  lemma OwnSaver(j: Job, t: Download, w: nat, e: Event)
    requires j.peers > 0 && Can(j, t, w, e) && SaverOk(t, t.workers[w]) && DoneStays(t, Do(j, t, w, e))
    ensures SaverOk(Do(j, t, w, e), Do(j, t, w, e).workers[w])
  {
  }

  lemma CellsEarned(j: Job, t: Download, w: nat, e: Event)
    requires j.peers > 0 && Can(j, t, w, e) && SidecarOk(t) && SaverOk(t, t.workers[w])
    requires DoneStays(t, Do(j, t, w, e))
    ensures var t' := Do(j, t, w, e);
      forall k :: 0 <= k < |t'.sidecar| && k < |t'.local| && t'.sidecar[k] == COMPLETED ==> t'.local[k] == COMPLETED
  {
  }

  lemma WriteKeepsDisk(j: Job, file0: Bytes, init: seq<int>, t: Download, w: nat, m: nat)
    requires ValidJob(j) && Conserved(j, init, t) && Can(j, t, w, WriteSome(m)) && DiskOk(j, file0, init, t)
    ensures DiskOk(j, file0, init, Do(j, t, w, WriteSome(m)))
  {
    var t' := Do(j, t, w, WriteSome(m));
    var pc := t.workers[w];
    var i, data := pc.i, pc.payload[..m];
    HolderFacts(j, init, t, w);
    assert WriterOk(j, t, pc);
    OwnSlot(j, t.file, i, data);
    forall k | 0 <= k < |init| && k != i ensures Slot(j, t'.file, k) == Slot(j, t.file, k) {
      OtherSlot(j, t.file, i, data, k);
    }
    forall k | 0 <= k < |init| && init[k] != COMPLETED && t'.shared[k] == COMPLETED ensures SlotOk(j, t'.file, k) {
      assert k != i;
      assert SlotOk(j, t.file, k);
    }
    WriteKeepsWriters(j, file0, init, t, w, m);
  }

  lemma WriteKeepsWriters(j: Job, file0: Bytes, init: seq<int>, t: Download, w: nat, m: nat)
    requires ValidJob(j) && Conserved(j, init, t) && Can(j, t, w, WriteSome(m)) && DiskOk(j, file0, init, t)
    ensures var t' := Do(j, t, w, WriteSome(m));
      forall v :: 0 <= v < |t'.workers| ==> WriterOk(j, t', t'.workers[v])
  {
    var t' := Do(j, t, w, WriteSome(m));
    forall v | 0 <= v < |t'.workers| ensures WriterOk(j, t', t'.workers[v]) {
      assert WriterOk(j, t, t.workers[v]);
      if v == w {
        WriterWrites(j, init, t, w, m);
      } else if t.workers[v].Writing? {
        OthersUnaffected(j, init, t, w, m, v);
      }
    }
  }

  lemma WriterWrites(j: Job, init: seq<int>, t: Download, w: nat, m: nat)
    requires ValidJob(j) && Conserved(j, init, t) && Can(j, t, w, WriteSome(m))
    requires WriterOk(j, t, t.workers[w]) && |t.file| >= |j.original|
    ensures var t' := Do(j, t, w, WriteSome(m)); WriterOk(j, t', t'.workers[w])
  {
    HolderFacts(j, init, t, w);
    OwnSlot(j, t.file, t.workers[w].i, t.workers[w].payload[..m]);
  }

  lemma OthersUnaffected(j: Job, init: seq<int>, t: Download, w: nat, m: nat, v: nat)
    requires ValidJob(j) && Conserved(j, init, t) && Can(j, t, w, WriteSome(m)) && |t.file| >= |j.original|
    requires v < |t.workers| && v != w && t.workers[v].Writing? && WriterOk(j, t, t.workers[v])
    requires WriterOk(j, t, t.workers[w])
    ensures var t' := Do(j, t, w, WriteSome(m)); WriterOk(j, t', t'.workers[v])
  {
    TwoWriters(j, init, t, v, w);
    WriteEffect(j, t, w, m, v);
    WriteApart(j, t, Do(j, t, w, WriteSome(m)), t.workers[w], m, t.workers[v]);
  }

  lemma WriteEffect(j: Job, t: Download, w: nat, m: nat, v: nat)
    requires j.peers > 0 && Can(j, t, w, WriteSome(m)) && v < |t.workers| && v != w
    ensures var t', pc := Do(j, t, w, WriteSome(m)), t.workers[w];
      m <= |pc.payload| && t'.file == Overlay(t.file, Start(pc.i), pc.payload[..m], 0)
      && v < |t'.workers| && t'.workers[v] == t.workers[v]
  {
  }

  lemma WriteApart(j: Job, t: Download, t': Download, pc: Pc, m: nat, other: Pc)
    requires pc.Writing? && other.Writing? && WriterOk(j, t, pc) && WriterOk(j, t, other) && pc.i != other.i
    requires pc.i < PieceCount(|j.original|) && other.i < PieceCount(|j.original|) && |t.file| >= |j.original|
    requires m <= |pc.payload| && t'.file == Overlay(t.file, Start(pc.i), pc.payload[..m], 0)
    ensures WriterOk(j, t', other)
  {
    WriterSizes(j, t, other, 0);
    WriterSizes(j, t, pc, m);
    OtherWriter(j, t.file, pc.i, pc.payload[..m], other.i, other.done);
    WriterKept(j, t, t', other);
  }

  lemma WriterKept(j: Job, t: Download, t': Download, pc: Pc)
    requires pc.Writing? && WriterOk(j, t, pc) && Start(pc.i) + pc.done <= |t'.file|
    requires t'.file[Start(pc.i)..Start(pc.i) + pc.done] == t.file[Start(pc.i)..Start(pc.i) + pc.done]
    ensures WriterOk(j, t', pc)
  {
  }

  lemma WriterSizes(j: Job, t: Download, pc: Pc, m: nat)
    requires pc.Writing? && WriterOk(j, t, pc) && m <= |pc.payload|
    ensures pc.done <= |Piece(j.original, pc.i)| && |pc.payload[..m]| <= |Piece(j.original, pc.i)|
  {
  }

  lemma TwoWriters(j: Job, init: seq<int>, t: Download, v: nat, w: nat)
    requires Conserved(j, init, t) && v < |t.workers| && w < |t.workers| && v != w
    requires t.workers[v].Writing? && t.workers[w].Writing?
    ensures t.workers[v].i != t.workers[w].i && t.workers[v].i < |init| && t.workers[w].i < |init|
  {
    HolderFacts(j, init, t, w);
    HolderFacts(j, init, t, v);
    assert Held(t.workers[v]) != Held(t.workers[w]);
  }

  /** Two workers never write overlapping bytes. */
  lemma OtherWriter(j: Job, file: Bytes, i: nat, data: Bytes, k: nat, done: nat)
    requires |file| >= |j.original| && i < PieceCount(|j.original|) && k < PieceCount(|j.original|) && k != i
    requires |data| <= |Piece(j.original, i)| && done <= |Piece(j.original, k)|
    ensures Start(k) + done <= |file| <= |Overlay(file, Start(i), data, 0)|
    ensures Overlay(file, Start(i), data, 0)[Start(k)..Start(k) + done] == file[Start(k)..Start(k) + done]
  {
    SlotBounds(j, i, k);
    OverlayApart(file, Start(i), data, Start(k), Start(k) + done);
  }

  lemma StepDisk(j: Job, file0: Bytes, init: seq<int>, t: Download, w: nat, e: Event)
    requires ValidJob(j) && Conserved(j, init, t) && Can(j, t, w, e) && DiskOk(j, file0, init, t)
    ensures DiskOk(j, file0, init, Do(j, t, w, e))
  {
    if e.WriteSome? {
      WriteKeepsDisk(j, file0, init, t, w, e.m);
    } else {
      FileStays(j, t, w, e);
      StepKeepsWriters(j, file0, init, t, w, e);
      StepKeepsSlots(j, file0, init, t, w, e);
    }
  }

  lemma FileStays(j: Job, t: Download, w: nat, e: Event)
    requires j.peers > 0 && Can(j, t, w, e) && !e.WriteSome?
    ensures Do(j, t, w, e).file == t.file
  {
  }

  lemma StepKeepsWriters(j: Job, file0: Bytes, init: seq<int>, t: Download, w: nat, e: Event)
    requires ValidJob(j) && Conserved(j, init, t) && Can(j, t, w, e) && DiskOk(j, file0, init, t) && !e.WriteSome?
    ensures var t' := Do(j, t, w, e);
      forall v :: 0 <= v < |t'.workers| ==> WriterOk(j, t', t'.workers[v])
  {
    var t' := Do(j, t, w, e);
    FileStays(j, t, w, e);
    assert WriterOk(j, t, t.workers[w]);
    OwnWriterStays(j, init, t, w, e);
    forall v | 0 <= v < |t'.workers| ensures WriterOk(j, t', t'.workers[v]) {
      assert WriterOk(j, t, t.workers[v]);
    }
  }

  lemma OwnWriterStays(j: Job, init: seq<int>, t: Download, w: nat, e: Event)
    requires ValidJob(j) && Conserved(j, init, t) && Can(j, t, w, e) && !e.WriteSome?
    requires WriterOk(j, t, t.workers[w]) && |t.file| >= |j.original|
    ensures WriterOk(j, Do(j, t, w, e), Do(j, t, w, e).workers[w])
  {
    if e.Accept? {
      HolderFacts(j, init, t, w);
      SlotInside(|j.original|, t.workers[w].i);
    }
  }

  lemma StepKeepsSlots(j: Job, file0: Bytes, init: seq<int>, t: Download, w: nat, e: Event)
    requires ValidJob(j) && Conserved(j, init, t) && Can(j, t, w, e) && DiskOk(j, file0, init, t) && !e.WriteSome?
    ensures var t' := Do(j, t, w, e);
      forall k :: 0 <= k < |init| && init[k] != COMPLETED && t'.shared[k] == COMPLETED ==> SlotOk(j, t'.file, k)
  {
    var t', pc := Do(j, t, w, e), t.workers[w];
    assert t'.file == t.file;
    if Held(pc).Some? {
      HolderFacts(j, init, t, w);
    }
    if e.Publish? {
      assert WriterOk(j, t, pc);
      assert Slot(j, t.file, pc.i) == Piece(j.original, pc.i);
    }
    forall k | 0 <= k < |init| && init[k] != COMPLETED && t'.shared[k] == COMPLETED ensures SlotOk(j, t'.file, k) {
      if t.shared[k] == COMPLETED {
        assert SlotOk(j, t.file, k);
      }
    }
  }

  lemma StepKeepsInv(j: Job, file0: Bytes, init: seq<int>, t: Download, w: nat, e: Event)
    requires DownloadInv(j, file0, init, t) && Can(j, t, w, e)
    ensures DownloadInv(j, file0, init, Do(j, t, w, e))
  {
    var t' := Do(j, t, w, e);
    assert RetryOk(j, w, t.workers[w]);
    StepRetry(j, init, t, w, e);
    StepConserved(j, init, t, w, e);
    StepDisk(j, file0, init, t, w, e);
    StepSidecar(j, init, t, w, e);
    StepCount(j, init, t, w, e);
    forall v | 0 <= v < |t'.workers| ensures RetryOk(j, v, t'.workers[v]) {
      assert RetryOk(j, v, t.workers[v]);
    }
  }
}
