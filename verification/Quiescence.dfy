/** Left alone, two linked trackers stop pushing, and when they stop they agree. */
module Quiescence {
  import opened Text
  import opened States
  import opened Records
  import opened Commands
  import opened Merging
  import opened Replication

  /** The links' own work: no client, no fault, no message from elsewhere, and frames within the cap. */
  predicate Internal(x: Action) {
    match x
    case Dial => true
    case Answer(text) => Fits(text)
    case Pull => true
    case Notice => true
    case Serialise(text) => Fits(PushFrame(text))
    case Deliver => true
    case Ack => true
    case _ => false
  }

  ghost predicate InternalStep(h: Digest, s: Trackers, s': Trackers) {
    exists x :: Internal(x) &&
      (Act(h, true, x, s.a, s.b, s'.a, s'.b)
       || Act(h, true, x, s.b, s.a, s'.b, s'.a))
  }

  ghost predicate InternalRun(h: Digest, run: seq<Trackers>) {
    run != [] && forall i :: 0 < i < |run| ==> InternalStepAt(h, run, i)
  }

  ghost predicate InternalStepAt(h: Digest, run: seq<Trackers>, i: int)
    requires 0 < i < |run|
  {
    InternalStep(h, run[i - 1], run[i])
  }

  // ---------- The measure ----------

  /** How far the link still has to go at the current version; a push of an older version comes round again. */
  function Rank(n: Node): nat {
    match n.link
    case Down => 11
    case Requested => 10
    case Pulled(_) => 9
    case Idle(last) => if last == n.version then 0 else 4
    case Noticed(v) => if v == n.version then 3 else 7
    case Sent(v, _) => if v == n.version then 2 else 6
    case Acked(v) => if v == n.version then 1 else 5
  }

  ghost function Absent(bound: set<Atom>, s: State): set<Atom> {
    set a | a in bound && !Has(s, a)
  }

  ghost function Missing(bound: set<Atom>, n: Node): nat {
    |Absent(bound, n.state)|
  }

  ghost function Measure(bound: set<Atom>, me: Node, peer: Node): nat {
    16 * (Missing(bound, me) + Missing(bound, peer)) + Rank(me) + Rank(peer)
  }

  /** Every fact of the state is one of `bound`. */
  ghost predicate Bounded(bound: set<Atom>, s: State) {
    forall a :: Has(s, a) ==> a in bound
  }

  ghost predicate BoundedNode(bound: set<Atom>, n: Node) {
    && Bounded(bound, n.state)
    && (n.link.Pulled? ==> Bounded(bound, Payload(n.link.reply)))
    && (n.link.Sent? ==> Bounded(bound, Payload(n.link.text)))
  }

  lemma PayloadBounded(bound: set<Atom>, s: State, text: string)
    requires Sound(s) && PrintedAs(s, text) && |text| <= MAX_LL && Bounded(bound, s)
    ensures Bounded(bound, Payload(text))
  {
    MergeOfPrintout(s, s, text);
    forall a | Has(Payload(text), a) ensures a in bound {
      assert Has(s, a);
    }
  }

  lemma SubsetSize(x: set<Atom>, y: set<Atom>)
    requires x <= y
    ensures |x| <= |y|
    ensures x != y ==> |x| < |y|
  {
    assert y == x + (y - x);
    assert |y| == |x| + |y - x|;
    if x != y {
      assert y - x != {};
    }
  }

  /** Receiving a good text either teaches the node something or leaves its version alone. */
  lemma ReceiveProgress(bound: set<Atom>, n: Node, text: string)
    requires ParseText(text).ok && Bounded(bound, n.state) && Bounded(bound, Payload(text))
    ensures Bounded(bound, Receive(n, text).state)
    ensures Missing(bound, Receive(n, text)) <= Missing(bound, n)
    ensures Receive(n, text).version != n.version ==> Missing(bound, Receive(n, text)) < Missing(bound, n)
  {
    var n' := Receive(n, text);
    HasJoinAll(n.state, Payload(text));
    SubsetSize(Absent(bound, n'.state), Absent(bound, n.state));
    if Changed(n.state, text) {
      var a :| Has(Payload(text), a) && !Has(n.state, a);
      assert a in Absent(bound, n.state) && a !in Absent(bound, n'.state);
    }
  }

  lemma PullProgress(bound: set<Atom>, me: Node, peer: Node)
    requires me.link.Pulled? && Fits(me.link.reply) && GoodText(me.link.reply)
    requires BoundedNode(bound, me) && BoundedNode(bound, peer)
    ensures var me' := Receive(me, me.link.reply).(link := Idle(0));
      BoundedNode(bound, me') && Measure(bound, me', peer) < Measure(bound, me, peer)
  {
    var s := GoodTextPayload(me.link.reply);
    ReceiveProgress(bound, me, me.link.reply);
    PulledRank(bound, me, peer, Receive(me, me.link.reply));
  }

  lemma PulledRank(bound: set<Atom>, me: Node, peer: Node, n: Node)
    requires me.link.Pulled? && Missing(bound, n) <= Missing(bound, me)
    ensures Measure(bound, n.(link := Idle(0)), peer) < Measure(bound, me, peer)
  {
    assert Missing(bound, n.(link := Idle(0))) == Missing(bound, n);
    assert Rank(n.(link := Idle(0))) <= 4 && Rank(me) == 9;
  }

  lemma DeliverProgress(bound: set<Atom>, me: Node, peer: Node)
    requires me.link.Sent? && Fits(PushFrame(me.link.text)) && GoodText(me.link.text)
    requires BoundedNode(bound, me) && BoundedNode(bound, peer)
    ensures var me', peer' := me.(link := Acked(me.link.v)), Receive(peer, me.link.text);
      BoundedNode(bound, me') && BoundedNode(bound, peer') && Measure(bound, me', peer') < Measure(bound, me, peer)
  {
    var s := GoodTextPayload(me.link.text);
    ReceiveProgress(bound, peer, me.link.text);
    RankShift(peer, Receive(peer, me.link.text));
    AckedRank(me);
    assert Missing(bound, me.(link := Acked(me.link.v))) == Missing(bound, me);
  }

  lemma RankShift(n: Node, n': Node)
    requires n'.link == n.link
    ensures Rank(n') <= Rank(n) + 4
    ensures n'.version == n.version ==> Rank(n') == Rank(n)
  {
  }

  lemma AckedRank(n: Node)
    requires n.link.Sent?
    ensures Rank(n.(link := Acked(n.link.v))) < Rank(n)
  {
  }

  lemma ActProgress(h: Digest, bound: set<Atom>, x: Action, me: Node, peer: Node,
                    me': Node, peer': Node)
    requires Internal(x) && Act(h, true, x, me, peer, me', peer')
    requires Half(false, me, peer) && Half(false, peer, me)
    requires BoundedNode(bound, me) && BoundedNode(bound, peer)
    ensures BoundedNode(bound, me') && BoundedNode(bound, peer')
    ensures Measure(bound, me', peer') < Measure(bound, me, peer)
  {
    match x
    case Dial =>
    case Answer(text) =>
      PayloadBounded(bound, peer.state, text);
    case Pull =>
      PullProgress(bound, me, peer);
    case Notice =>
    case Serialise(text) =>
      PayloadBounded(bound, me.state, text);
    case Deliver =>
      DeliverProgress(bound, me, peer);
    case Ack =>
  }

  ghost predicate BoundedSystem(bound: set<Atom>, s: Trackers) {
    BoundedNode(bound, s.a) && BoundedNode(bound, s.b)
  }

  lemma StepProgress(h: Digest, bound: set<Atom>, s: Trackers, s': Trackers)
    requires HexDigest(h) && LinksInv(false, s) && InternalStep(h, s, s') && BoundedSystem(bound, s)
    ensures LinksInv(false, s') && BoundedSystem(bound, s')
    ensures Measure(bound, s'.a, s'.b) < Measure(bound, s.a, s.b)
  {
    var x :| Internal(x) &&
      (Act(h, true, x, s.a, s.b, s'.a, s'.b)
       || Act(h, true, x, s.b, s.a, s'.b, s'.a));
    if Act(h, true, x, s.a, s.b, s'.a, s'.b) {
      OneActs(h, bound, x, s.a, s.b, s'.a, s'.b);
    } else {
      OneActs(h, bound, x, s.b, s.a, s'.b, s'.a);
    }
  }

  lemma OneActs(h: Digest, bound: set<Atom>, x: Action, me: Node, peer: Node, me': Node, peer': Node)
    requires HexDigest(h) && Internal(x) && Act(h, true, x, me, peer, me', peer')
    requires Half(false, me, peer) && Half(false, peer, me) && BoundedNode(bound, me) && BoundedNode(bound, peer)
    ensures Half(false, me', peer') && Half(false, peer', me')
    ensures BoundedNode(bound, me') && BoundedNode(bound, peer')
    ensures Measure(bound, me', peer') < Measure(bound, me, peer)
  {
    ActProgress(h, bound, x, me, peer, me', peer');
    OneActKeeps(h, x, me, peer, me', peer');
  }

  lemma OneActKeeps(h: Digest, x: Action, me: Node, peer: Node, me': Node, peer': Node)
    requires HexDigest(h) && Act(h, true, x, me, peer, me', peer')
    requires Half(false, me, peer) && Half(false, peer, me)
    ensures Half(false, me', peer') && Half(false, peer', me')
  {
    assert Act(h, false, x, me, peer, me', peer');
    StepKeepsHalves(h, false, x, me, peer, me', peer');
  }

  lemma {:induction false} InternalKeeps(h: Digest, bound: set<Atom>, run: seq<Trackers>, i: nat)
    requires HexDigest(h) && InternalRun(h, run) && i < |run|
    requires LinksInv(false, run[0]) && BoundedSystem(bound, run[0])
    ensures LinksInv(false, run[i]) && BoundedSystem(bound, run[i])
  {
    if i > 0 {
      InternalKeeps(h, bound, run, i - 1);
      ProgressAt(h, bound, run, i);
    }
  }

  lemma ProgressAt(h: Digest, bound: set<Atom>, run: seq<Trackers>, i: nat)
    requires HexDigest(h) && InternalRun(h, run) && 0 < i < |run|
    requires LinksInv(false, run[i - 1]) && BoundedSystem(bound, run[i - 1])
    ensures LinksInv(false, run[i]) && BoundedSystem(bound, run[i])
    ensures Measure(bound, run[i].a, run[i].b) < Measure(bound, run[i - 1].a, run[i - 1].b)
  {
    assert InternalStepAt(h, run, i);
    StepProgress(h, bound, run[i - 1], run[i]);
  }

  lemma MeasureDrops(h: Digest, bound: set<Atom>, run: seq<Trackers>, i: nat)
    requires HexDigest(h) && InternalRun(h, run) && 0 < i < |run|
    requires LinksInv(false, run[0]) && BoundedSystem(bound, run[0])
    ensures Measure(bound, run[i].a, run[i].b) < Measure(bound, run[i - 1].a, run[i - 1].b)
  {
    InternalKeeps(h, bound, run, i - 1);
    ProgressAt(h, bound, run, i);
  }

  ghost predicate DropsAt(bound: set<Atom>, run: seq<Trackers>, i: nat)
    requires 0 < i < |run|
  {
    Measure(bound, run[i].a, run[i].b) < Measure(bound, run[i - 1].a, run[i - 1].b)
  }

  lemma {:induction false} MeasureFalls(bound: set<Atom>, run: seq<Trackers>, i: nat)
    requires i < |run| && forall m: nat | 0 < m < |run| :: DropsAt(bound, run, m)
    ensures Measure(bound, run[i].a, run[i].b) + i <= Measure(bound, run[0].a, run[0].b)
  {
    if i > 0 {
      MeasureFalls(bound, run, i - 1);
      assert DropsAt(bound, run, i);
    }
  }

  // ---------- A bound to start from ----------

  ghost function InFlight(p: Phase): set<Atom> {
    match p
    case Pulled(text) => AtomsOf(Payload(text))
    case Sent(_, text) => AtomsOf(Payload(text))
    case _ => {}
  }

  /** Every fact present at either tracker or on the wire. */
  ghost function Facts(s: Trackers): set<Atom> {
    AtomsOf(s.a.state) + AtomsOf(s.b.state) + InFlight(s.a.link) + InFlight(s.b.link)
  }

  lemma AtomsBound(bound: set<Atom>, s: State)
    requires AtomsOf(s) <= bound
    ensures Bounded(bound, s)
  {
    forall a | Has(s, a) ensures a in bound {
      AtomsOfHas(s, a);
    }
  }

  lemma NodeFacts(bound: set<Atom>, n: Node)
    requires AtomsOf(n.state) <= bound && InFlight(n.link) <= bound
    ensures BoundedNode(bound, n)
  {
    AtomsBound(bound, n.state);
    match n.link
    case Pulled(text) => AtomsBound(bound, Payload(text));
    case Sent(_, text) => AtomsBound(bound, Payload(text));
    case _ =>
  }

  lemma FactsBound(s: Trackers)
    ensures BoundedSystem(Facts(s), s)
  {
    var bound := Facts(s);
    var x, y, u, v := AtomsOf(s.a.state), AtomsOf(s.b.state), InFlight(s.a.link), InFlight(s.b.link);
    assert bound == x + y + u + v;
    NodeFacts(bound, s.a);
    NodeFacts(bound, s.b);
  }

  lemma MeasureBound(bound: set<Atom>, me: Node, peer: Node)
    ensures Measure(bound, me, peer) <= 32 * |bound| + 22
  {
    SubsetSize(Absent(bound, me.state), bound);
    SubsetSize(Absent(bound, peer.state), bound);
  }

  /**
   * Once clients and faults pause, after any run with both, the links can take only finitely many more
   * steps, and so push only finitely often: at most 32 for each fact known anywhere, and a few more.
   */
  lemma LinksGoQuiet(h: Digest, full: bool, run: seq<Trackers>, tail: seq<Trackers>)
    requires HexDigest(h) && LinkRun(h, full, run) && InternalRun(h, tail) && tail[0] == run[|run| - 1]
    ensures |tail| <= 32 * |Facts(tail[0])| + 23
  {
    RunKeepsLinks(h, full, run, |run| - 1);
    OnlyCoreNeeded(full, tail[0]);
    QuietFrom(h, tail);
  }

  lemma QuietFrom(h: Digest, tail: seq<Trackers>)
    requires HexDigest(h) && InternalRun(h, tail) && LinksInv(false, tail[0])
    ensures |tail| <= 32 * |Facts(tail[0])| + 23
  {
    var s := tail[0];
    FactsBound(s);
    forall m: nat | 0 < m < |tail| ensures DropsAt(Facts(s), tail, m) {
      MeasureDrops(h, Facts(s), tail, m);
    }
    MeasureFalls(Facts(s), tail, |tail| - 1);
    MeasureBound(Facts(s), s.a, s.b);
  }

  lemma OnlyCoreNeeded(full: bool, s: Trackers)
    requires LinksInv(full, s)
    ensures LinksInv(false, s)
  {
  }

  // ---------- Nothing left to do means agreement ----------

  /** The frame on the wire, if there is one, is within the cap. */
  predicate FrameFits(p: Phase) {
    (p.Pulled? ==> Fits(p.reply)) && (p.Sent? ==> Fits(PushFrame(p.text)))
  }

  ghost predicate SmallEnough(s: State) {
    exists text :: PrintedAs(s, text) && Fits(PushFrame(text))
  }

  /** A link that is not settled always has a next step. */
  lemma Enabled(h: Digest, me: Node, peer: Node)
    returns (x: Action, me': Node, peer': Node)
    requires !Settled(me) && FrameFits(me.link) && SmallEnough(me.state) && SmallEnough(peer.state)
    ensures Internal(x) && Act(h, true, x, me, peer, me', peer')
  {
    peer' := peer;
    match me.link
    case Down =>
      x, me' := Dial, me.(link := Requested);
    case Requested =>
      var text :| PrintedAs(peer.state, text) && Fits(PushFrame(text));
      x, me' := Answer(text), me.(link := Pulled(text));
    case Pulled(reply) =>
      x, me' := Pull, Receive(me, reply).(link := Idle(0));
    case Idle(last) =>
      x, me' := Notice, me.(link := Noticed(me.version));
    case Noticed(v) =>
      var text :| PrintedAs(me.state, text) && Fits(PushFrame(text));
      x, me' := Serialise(text), me.(link := Sent(v, text));
    case Sent(v, text) =>
      x, me', peer' := Deliver, me.(link := Acked(v)), Receive(peer, text);
    case Acked(v) =>
      x, me' := Ack, me.(link := Idle(v));
  }

  /**
   * If after any run, faults included, the links have nothing left to do, both are settled and the
   * trackers agree. With LinksGoQuiet: once clients and faults pause, the trackers always come to agree.
   */
  lemma QuietMeansAgreed(h: Digest, full: bool, run: seq<Trackers>)
    requires HexDigest(h) && LinkRun(h, full, run)
    requires var s := run[|run| - 1];
      && FrameFits(s.a.link) && FrameFits(s.b.link) && SmallEnough(s.a.state) && SmallEnough(s.b.state)
      && forall s' :: !InternalStep(h, s, s')
    ensures var s := run[|run| - 1];
      && Settled(s.a) && Settled(s.b) && SameCore(s.a.state, s.b.state)
      && (full ==> SameMembership(s.a.state, s.b.state))
  {
    var s := run[|run| - 1];
    if !Settled(s.a) {
      var x, a', b' := Enabled(h, s.a, s.b);
      assert InternalStep(h, s, Trackers(a', b'));
    }
    if !Settled(s.b) {
      var x, b', a' := Enabled(h, s.b, s.a);
      assert InternalStep(h, s, Trackers(a', b'));
    }
    Convergence(h, full, run, |run| - 1);
  }
}
