/** The peer server: an accept thread, a queue of connections, a pool of workers, and the stop call. */
module PeerPool {

  /** The accept loop: in accept(), holding a descriptor not yet queued, or returned. */
  datatype Acceptor = Listening | Accepted(fd: nat) | Returned

  /** A worker: waiting for the queue, serving one connection, or returned. */
  datatype Worker = Waiting | Serving(fd: nat) | Gone

  /** The stop call: not made, flag set, accept thread joined, workers joined, or returned. */
  datatype Stopper = NotCalled | Flagged | AcceptorJoined | WorkersJoined | Stopped

  /**
   * `next` numbers the descriptors handed out so far; `closed` counts how often each was closed.
   */
  datatype Pool = Pool(acceptor: Acceptor, workers: seq<Worker>, pending: seq<nat>, stopping: bool,
                       stopper: Stopper, next: nat, closed: multiset<nat>)

  datatype Event =
    | Accept            // a connection arrives
    | AcceptFails       // accept() returns an error; the loop ends only if stopping
    | Enqueue           // under the lock: queue it, or close it and return when stopping
    | Take(w: nat)      // under the lock: pop the front, or return when stopping and empty
    | Close(w: nat)     // serve_one ends, which closes the connection on every path
    | SetFlag
    | JoinAcceptor
    | JoinWorkers
    | Drain             // under the lock: close whatever is still queued

  predicate Can(p: Pool, e: Event) {
    match e
    case Accept => p.acceptor.Listening?
    case AcceptFails => p.acceptor.Listening?
    case Enqueue => p.acceptor.Accepted?
    case Take(w) => w < |p.workers| && p.workers[w].Waiting? && (p.pending != [] || p.stopping)
    case Close(w) => w < |p.workers| && p.workers[w].Serving?
    case SetFlag => p.stopper.NotCalled?
    case JoinAcceptor => p.stopper.Flagged? && p.acceptor.Returned?
    case JoinWorkers => p.stopper.AcceptorJoined? && forall w :: 0 <= w < |p.workers| ==> p.workers[w].Gone?
    case Drain => p.stopper.WorkersJoined?
  }

  function Do(p: Pool, e: Event): Pool
    requires Can(p, e)
  {
    match e
    case Accept => p.(acceptor := Accepted(p.next), next := p.next + 1)
    case AcceptFails => if p.stopping then p.(acceptor := Returned) else p
    case Enqueue =>
      var fd := p.acceptor.fd;
      if p.stopping then p.(acceptor := Returned, closed := p.closed + multiset{fd})
      else p.(acceptor := Listening, pending := p.pending + [fd])
    case Take(w) =>
      if p.pending == [] then p.(workers := p.workers[w := Gone])
      else
        var fd := p.pending[0];
        p.(workers := p.workers[w := Serving(fd)], pending := p.pending[1..])
    case Close(w) =>
      p.(workers := p.workers[w := Waiting], closed := p.closed + multiset{p.workers[w].fd})
    case SetFlag => p.(stopping := true, stopper := Flagged)
    case JoinAcceptor => p.(stopper := AcceptorJoined)
    case JoinWorkers => p.(stopper := WorkersJoined)
    case Drain => p.(stopper := Stopped, pending := [], closed := p.closed + multiset(p.pending))
  }

  function Begin(workers: nat): Pool {
    Pool(Listening, seq(workers, _ => Waiting), [], false, NotCalled, 0, multiset{})
  }

  ghost predicate PoolRun(workers: nat, run: seq<Pool>) {
    && run != [] && run[0] == Begin(workers)
    && forall i :: 0 < i < |run| ==> StepAt(run, i)
  }

  ghost predicate StepAt(run: seq<Pool>, i: int)
    requires 0 < i < |run|
  {
    Step(run[i - 1], run[i])
  }

  ghost predicate Step(p: Pool, p': Pool) {
    exists e :: Can(p, e) && p' == Do(p, e)
  }

  // ---------- Where every descriptor is ----------

  function InAcceptor(a: Acceptor, fd: nat): nat {
    if a.Accepted? && a.fd == fd then 1 else 0
  }

  function InWorker(w: Worker, fd: nat): nat {
    if w.Serving? && w.fd == fd then 1 else 0
  }

  function InWorkers(ws: seq<Worker>, fd: nat): nat {
    if ws == [] then 0 else InWorker(ws[0], fd) + InWorkers(ws[1..], fd)
  }

  lemma {:induction false} InWorkersUpdate(ws: seq<Worker>, w: nat, x: Worker, fd: nat)
    requires w < |ws|
    ensures InWorkers(ws[w := x], fd) + InWorker(ws[w], fd) == InWorkers(ws, fd) + InWorker(x, fd)
  {
    if w == 0 {
      assert ws[w := x][1..] == ws[1..];
    } else {
      assert ws[w := x][1..] == ws[1..][w - 1 := x];
      InWorkersUpdate(ws[1..], w - 1, x, fd);
    }
  }

  lemma {:induction false} NobodyServing(ws: seq<Worker>, fd: nat)
    requires forall w :: 0 <= w < |ws| ==> !ws[w].Serving?
    ensures InWorkers(ws, fd) == 0
  {
    if ws != [] {
      NobodyServing(ws[1..], fd);
    }
  }

  /** How many times a descriptor is held anywhere, times closed included. */
  function Places(p: Pool, fd: nat): nat {
    InAcceptor(p.acceptor, fd) + multiset(p.pending)[fd] + InWorkers(p.workers, fd) + p.closed[fd]
  }

  /** Every descriptor handed out is in exactly one place, and closed at most once. */
  ghost predicate Placed(p: Pool) {
    forall fd: nat :: Places(p, fd) == if fd < p.next then 1 else 0
  }

  predicate AllGone(p: Pool) {
    forall w :: 0 <= w < |p.workers| ==> p.workers[w].Gone?
  }

  /** How far the acceptor, the workers and the stop call may be apart. */
  ghost predicate InOrder(workers: nat, p: Pool) {
    && |p.workers| == workers > 0
    && (p.stopping <==> !p.stopper.NotCalled?)
    && (p.acceptor.Returned? ==> p.stopping)
    && (p.stopper.AcceptorJoined? || p.stopper.WorkersJoined? || p.stopper.Stopped? ==> p.acceptor.Returned?)
    && (forall w :: 0 <= w < |p.workers| && p.workers[w].Gone? ==> p.stopping && p.pending == [])
    && (p.stopper.WorkersJoined? || p.stopper.Stopped? ==> AllGone(p))
  }

  ghost predicate PoolInv(workers: nat, p: Pool) {
    Placed(p) && InOrder(workers, p)
  }

  lemma TakeKeepsPlaces(p: Pool, w: nat, fd: nat)
    requires Can(p, Take(w)) && p.pending != []
    ensures Places(Do(p, Take(w)), fd) == Places(p, fd)
  {
    var front := p.pending[0];
    InWorkersUpdate(p.workers, w, Serving(front), fd);
    assert p.pending == [front] + p.pending[1..];
    assert multiset(p.pending)[fd] == multiset(p.pending[1..])[fd] + (if fd == front then 1 else 0);
  }

  lemma WorkerKeepsPlaces(p: Pool, e: Event, fd: nat)
    requires Can(p, e)
    requires e.Close? || (e.Take? && p.pending == [])
    ensures Places(Do(p, e), fd) == Places(p, fd)
  {
    InWorkersUpdate(p.workers, e.w, if e.Close? then Waiting else Gone, fd);
  }

  /** No step loses or duplicates a descriptor; only accepting one adds it. */
  lemma StepKeepsPlaces(p: Pool, e: Event, fd: nat)
    requires Can(p, e)
    ensures Places(Do(p, e), fd) == Places(p, fd) + if e.Accept? && fd == p.next then 1 else 0
  {
    match e
    case Take(w) =>
      if p.pending == [] {
        WorkerKeepsPlaces(p, e, fd);
      } else {
        TakeKeepsPlaces(p, w, fd);
      }
    case Close(w) => WorkerKeepsPlaces(p, e, fd);
    case _ =>
  }

  lemma StepKeepsOrder(workers: nat, p: Pool, e: Event)
    requires Can(p, e) && InOrder(workers, p)
    ensures InOrder(workers, Do(p, e))
  {
  }

  /** With at least one worker the last loop of the stop call has nothing to close. */
  lemma DrainFindsNothing(workers: nat, p: Pool)
    requires InOrder(workers, p) && (p.stopper.WorkersJoined? || p.stopper.Stopped?)
    ensures p.pending == []
  {
    assert p.workers[0].Gone?;
  }

  lemma StepKeepsInv(workers: nat, p: Pool, e: Event)
    requires Can(p, e) && PoolInv(workers, p)
    ensures PoolInv(workers, Do(p, e))
  {
    forall fd: nat
      ensures Places(Do(p, e), fd) == if fd < Do(p, e).next then 1 else 0
    {
      StepKeepsPlaces(p, e, fd);
    }
    StepKeepsOrder(workers, p, e);
  }

  lemma {:induction false} RunKeepsInv(workers: nat, run: seq<Pool>, i: nat)
    requires workers > 0 && PoolRun(workers, run) && i < |run|
    ensures PoolInv(workers, run[i])
  {
    if i == 0 {
      forall fd: nat
        ensures Places(run[0], fd) == 0
      {
        NobodyServing(run[0].workers, fd);
      }
    } else {
      RunKeepsInv(workers, run, i - 1);
      assert StepAt(run, i);
      var e :| Can(run[i - 1], e) && run[i] == Do(run[i - 1], e);
      StepKeepsInv(workers, run[i - 1], e);
    }
  }

  /** In every run each accepted descriptor is pending, held, or closed: one of these, once. */
  lemma EachInOnePlace(workers: nat, run: seq<Pool>, i: nat, fd: nat)
    requires workers > 0 && PoolRun(workers, run) && i < |run|
    ensures Places(run[i], fd) == if fd < run[i].next then 1 else 0
  {
    RunKeepsInv(workers, run, i);
  }

  /** When the stop call returns, every accepted descriptor has been closed exactly once. */
  lemma StoppedCleanly(workers: nat, run: seq<Pool>, i: nat)
    requires workers > 0 && PoolRun(workers, run) && i < |run| && run[i].stopper.Stopped?
    ensures forall fd: nat :: run[i].closed[fd] == if fd < run[i].next then 1 else 0
  {
    RunKeepsInv(workers, run, i);
    DrainFindsNothing(workers, run[i]);
    forall fd: nat
      ensures run[i].closed[fd] == if fd < run[i].next then 1 else 0
    {
      NobodyServing(run[i].workers, fd);
      assert Places(run[i], fd) == run[i].closed[fd];
    }
  }

  ghost predicate IsServed(p: Pool, fd: nat) {
    exists w: nat :: w < |p.workers| && p.workers[w] == Serving(fd)
  }

  lemma StillQueued(workers: nat, p: Pool, e: Event, fd: nat)
    requires Can(p, e) && InOrder(workers, p) && fd in p.pending
    ensures fd in Do(p, e).pending || IsServed(Do(p, e), fd)
  {
    if e.Drain? {
      DrainFindsNothing(workers, p);
    }
    if e.Take? {
      assert p.pending == [p.pending[0]] + p.pending[1..];
      if fd == p.pending[0] {
        assert Do(p, e).workers[e.w] == Serving(fd);
      }
    }
  }

  lemma StillQueuedAt(workers: nat, run: seq<Pool>, i: nat, fd: nat)
    requires workers > 0 && PoolRun(workers, run) && i + 1 < |run| && fd in run[i].pending
    ensures fd in run[i + 1].pending || IsServed(run[i + 1], fd)
  {
    RunKeepsOrder(workers, run, i);
    assert StepAt(run, i + 1);
    var e :| Can(run[i], e) && run[i + 1] == Do(run[i], e);
    StillQueued(workers, run[i], e, fd);
  }

  /** Whatever is queued at any moment, before or after the flag, a worker gets before the stop call returns. */
  lemma {:induction false} QueuedReachesWorker(workers: nat, run: seq<Pool>, i: nat, j: nat, fd: nat)
    returns (m: nat, w: nat)
    requires workers > 0 && PoolRun(workers, run) && i <= j < |run| && fd in run[i].pending
    requires run[j].stopper.Stopped?
    ensures i < m <= j && w < |run[m].workers| && run[m].workers[w] == Serving(fd)
    decreases j - i
  {
    RunKeepsOrder(workers, run, i);
    if i == j {
      DrainFindsNothing(workers, run[i]);
      assert false;
    } else {
      StillQueuedAt(workers, run, i, fd);
      if fd in run[i + 1].pending {
        m, w := QueuedReachesWorker(workers, run, i + 1, j, fd);
      } else {
        m := i + 1;
        w :| w < |run[m].workers| && run[m].workers[w] == Serving(fd);
      }
    }
  }

  // ---------- First come, first served ----------

  /** Descriptors are numbered as they are accepted, and the queue is ascending. */
  ghost predicate Ascending(p: Pool) {
    && (forall a, b :: 0 <= a < b < |p.pending| ==> p.pending[a] < p.pending[b])
    && (forall a :: 0 <= a < |p.pending| ==> p.pending[a] < p.next)
    && (p.acceptor.Accepted? ==>
          p.acceptor.fd < p.next && forall a :: 0 <= a < |p.pending| ==> p.pending[a] < p.acceptor.fd)
  }

  lemma StepKeepsAscending(p: Pool, e: Event)
    requires Can(p, e) && Ascending(p)
    ensures Ascending(Do(p, e))
  {
  }

  lemma {:induction false} AlwaysAscending(workers: nat, run: seq<Pool>, i: nat)
    requires PoolRun(workers, run) && i < |run|
    ensures Ascending(run[i])
  {
    if i > 0 {
      AlwaysAscending(workers, run, i - 1);
      AscendingAt(workers, run, i);
    }
  }

  lemma AscendingAt(workers: nat, run: seq<Pool>, i: nat)
    requires PoolRun(workers, run) && 0 < i < |run| && Ascending(run[i - 1])
    ensures Ascending(run[i])
  {
    assert StepAt(run, i);
    var e :| Can(run[i - 1], e) && run[i] == Do(run[i - 1], e);
    StepKeepsAscending(run[i - 1], e);
  }

  /** A worker that starts to serve a connection has the one accepted first of all that waited. */
  lemma FirstComeFirstServed(workers: nat, run: seq<Pool>, i: nat, w: nat, fd: nat)
    requires PoolRun(workers, run) && i + 1 < |run| && w < |run[i].workers| && w < |run[i + 1].workers|
    requires run[i + 1].workers[w] == Serving(fd) && run[i].workers[w] != Serving(fd)
    ensures fd in run[i].pending && forall x :: x in run[i].pending ==> fd <= x
  {
    AlwaysAscending(workers, run, i);
    assert StepAt(run, i + 1);
    var e :| Can(run[i], e) && run[i + 1] == Do(run[i], e);
    TakenIsFirst(run[i], e, w, fd);
  }

  lemma TakenIsFirst(p: Pool, e: Event, w: nat, fd: nat)
    requires Can(p, e) && Ascending(p) && w < |p.workers| && w < |Do(p, e).workers|
    requires Do(p, e).workers[w] == Serving(fd) && p.workers[w] != Serving(fd)
    ensures fd in p.pending && forall x :: x in p.pending ==> fd <= x
  {
    assert e == Take(w) && fd == p.pending[0];
  }

  // ---------- The stop call returns ----------

  function WorkLeft(w: Worker): nat {
    match w case Waiting => 1 case Serving(_) => 2 case Gone => 0
  }

  function WorkersLeft(ws: seq<Worker>): nat {
    if ws == [] then 0 else WorkLeft(ws[0]) + WorkersLeft(ws[1..])
  }

  lemma {:induction false} WorkersLeftUpdate(ws: seq<Worker>, w: nat, x: Worker)
    requires w < |ws|
    ensures WorkersLeft(ws[w := x]) + WorkLeft(ws[w]) == WorkersLeft(ws) + WorkLeft(x)
  {
    if w == 0 {
      assert ws[w := x][1..] == ws[1..];
    } else {
      assert ws[w := x][1..] == ws[1..][w - 1 := x];
      WorkersLeftUpdate(ws[1..], w - 1, x);
    }
  }

  function Left(p: Pool): nat {
    (match p.acceptor case Listening => 2 case Accepted(_) => 1 case Returned => 0)
    + 2 * |p.pending| + WorkersLeft(p.workers)
    + match p.stopper
      case NotCalled => 4
      case Flagged => 3
      case AcceptorJoined => 2
      case WorkersJoined => 1
      case Stopped => 0
  }

  /** Once the flag is set, every step of every thread brings the end nearer... */
  lemma StoppingStepsEnd(workers: nat, p: Pool, e: Event)
    requires Can(p, e) && InOrder(workers, p) && p.stopping
    ensures Left(Do(p, e)) < Left(p)
  {
    match e
    case Take(w) =>
      WorkersLeftUpdate(p.workers, w, if p.pending == [] then Gone else Serving(p.pending[0]));
    case Close(w) =>
      WorkersLeftUpdate(p.workers, w, Waiting);
    case _ =>
  }

  lemma StoppingStepAt(workers: nat, run: seq<Pool>, i: nat)
    requires workers > 0 && PoolRun(workers, run) && 0 < i < |run| && run[i - 1].stopping
    ensures run[i].stopping && Left(run[i]) < Left(run[i - 1])
  {
    var p, p' := run[i - 1], run[i];
    assert InOrder(workers, p) by { RunKeepsOrder(workers, run, i - 1); }
    assert StepAt(run, i);
    StoppingStepEnds(workers, p, p');
  }

  lemma RunKeepsOrder(workers: nat, run: seq<Pool>, i: nat)
    requires workers > 0 && PoolRun(workers, run) && i < |run|
    ensures InOrder(workers, run[i])
  {
    RunKeepsInv(workers, run, i);
  }

  lemma StoppingStepEnds(workers: nat, p: Pool, p': Pool)
    requires Step(p, p') && InOrder(workers, p) && p.stopping
    ensures p'.stopping && Left(p') < Left(p)
  {
    var e :| Can(p, e) && p' == Do(p, e);
    StoppingStepsEnd(workers, p, e);
  }

  /** ...and until the stop call has returned, some thread can take one. */
  lemma StoppingIsNeverStuck(workers: nat, p: Pool)
    requires InOrder(workers, p) && p.stopping
    ensures p.stopper.Stopped? || exists e :: Can(p, e)
  {
    if p.stopper.WorkersJoined? {
      assert Can(p, Drain);
    } else if p.acceptor.Listening? {
      assert Can(p, AcceptFails);
    } else if p.acceptor.Accepted? {
      assert Can(p, Enqueue);
    } else if p.stopper.Flagged? {
      assert Can(p, JoinAcceptor);
    } else if w :| 0 <= w < |p.workers| && !p.workers[w].Gone? {
      assert Can(p, if p.workers[w].Waiting? then Take(w) else Close(w));
    } else if p.stopper.AcceptorJoined? {
      assert Can(p, JoinWorkers);
    }
  }

  /** From a set flag at most Left more steps happen, in whatever order the threads run. */
  lemma {:induction false} StopReturns(workers: nat, run: seq<Pool>, i: nat, j: nat)
    requires workers > 0 && PoolRun(workers, run) && i <= j < |run| && run[i].stopping
    ensures run[j].stopping && Left(run[j]) + (j - i) <= Left(run[i])
  {
    if i < j {
      StopReturns(workers, run, i, j - 1);
      StoppingStepAt(workers, run, j);
    }
  }
}
