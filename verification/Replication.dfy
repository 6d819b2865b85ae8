/** Two trackers that exchange their printed states over links that may fail at any time. */
module Replication {
  import opened Text
  import opened States
  import opened Records
  import opened Commands
  import opened Merging

  const MAX_FRAME := 16 * 1024 * 1024

  /** A frame the receiver accepts. */
  predicate Fits(payload: string) {
    |payload| <= MAX_FRAME
  }

  function PushFrame(text: string): string {
    "STATE " + text
  }

  /**
   * Where the replication thread of a tracker is: without a connection, waiting for the peer's
   * state, holding it, idle with the last pushed version, having read a newer version, having sent
   * the state it then printed, or holding the acknowledgement.
   */
  datatype Phase =
    | Down
    | Requested
    | Pulled(reply: string)
    | Idle(last: nat)
    | Noticed(v: nat)
    | Sent(v: nat, text: string)
    | Acked(v: nat)

  datatype Node = Node(state: State, version: nat, link: Phase)

  datatype Trackers = Trackers(a: Node, b: Node)

  datatype Action =
    | Client(cmd: Command)
    | Dial
    | Answer(answer: string)
    | Pull
    | Notice
    | Serialise(text: string)
    | Deliver
    | Ack
    | Drop
    | Foreign(message: string)

  ghost function Receive(n: Node, text: string): Node {
    Node(Merged(n.state, text), VersionAfter(n.state, n.version, text), n.link)
  }

  /** A state message without a bad line, whose records are printable and have credentials. */
  ghost predicate Harmless(text: string) {
    ParseText(text).ok && Sound(Payload(text))
  }

  /** What a sound tracker prints is such a message, at whatever time it arrives. */
  lemma PrintoutHarmless(s: State, text: string)
    requires Sound(s) && PrintedAs(s, text) && |text| <= MAX_LL
    ensures Harmless(text)
  {
    MergeOfPrintout(s, s, text);
    WireKeepsPrintable(s);
  }

  /** One step of tracker `me`, whose link goes to `peer`. `full` forbids commands that remove. */
  ghost predicate Act(h: Digest, full: bool, x: Action, me: Node, peer: Node,
                      me': Node, peer': Node)
  {
    match x
    case Client(c) =>
      && Wellformed(c) && (full ==> !Removes(c))
      && me' == Node(Exec(h, me.state, c).state, me.version + (if Exec(h, me.state, c).ok then 1 else 0), me.link)
      && peer' == peer
    case Dial =>
      me.link.Down? && me' == me.(link := Requested) && peer' == peer
    case Answer(text) =>
      && me.link.Requested? && PrintedAs(peer.state, text)
      && me' == me.(link := Pulled(text)) && peer' == peer
    case Pull =>
      && me.link.Pulled? && Fits(me.link.reply)
      && me' == Receive(me, me.link.reply).(link := Idle(0)) && peer' == peer
    case Notice =>
      && me.link.Idle? && me.version != me.link.last
      && me' == me.(link := Noticed(me.version)) && peer' == peer
    case Serialise(text) =>
      && me.link.Noticed? && PrintedAs(me.state, text)
      && me' == me.(link := Sent(me.link.v, text)) && peer' == peer
    case Deliver =>
      && me.link.Sent? && Fits(PushFrame(me.link.text))
      && me' == me.(link := Acked(me.link.v)) && peer' == Receive(peer, me.link.text)
    case Ack =>
      me.link.Acked? && me' == me.(link := Idle(me.link.v)) && peer' == peer
    case Drop =>
      me' == me.(link := Down) && peer' == peer
    case Foreign(text) =>
      Fits(PushFrame(text)) && Harmless(text) && me' == Receive(me, text) && peer' == peer
  }

  /** At any time a link may be lost, a client may be served, and a harmless message may come from anywhere. */
  lemma AnyTime(h: Digest, me: Node, peer: Node, c: Command, text: string)
    ensures exists n :: Act(h, false, Drop, me, peer, n, peer) && n == me.(link := Down)
    ensures Wellformed(c) ==>
      exists n :: Act(h, false, Client(c), me, peer, n, peer) && n.state == Exec(h, me.state, c).state
    ensures Harmless(text) && |text| + 6 <= MAX_FRAME ==>
      exists n :: Act(h, false, Foreign(text), me, peer, n, peer) && n.state == Merged(me.state, text)
  {
    assert Act(h, false, Drop, me, peer, me.(link := Down), peer);
    if Wellformed(c) {
      var o := Exec(h, me.state, c);
      assert Act(h, false, Client(c), me, peer, Node(o.state, me.version + (if o.ok then 1 else 0), me.link), peer);
    }
    if Harmless(text) && |text| + 6 <= MAX_FRAME {
      assert Act(h, false, Foreign(text), me, peer, Receive(me, text), peer);
    }
  }

  /** A step by one of the two trackers. */
  ghost predicate Next(h: Digest, full: bool, s: Trackers, s': Trackers) {
    exists x :: Act(h, full, x, s.a, s.b, s'.a, s'.b)
             || Act(h, full, x, s.b, s.a, s'.b, s'.a)
  }

  /** Both start unlinked, with version 0, from any sound state: empty or loaded from a snapshot. */
  ghost predicate Init(s: Trackers) {
    && Sound(s.a.state) && Sound(s.b.state)
    && s.a.version == 0 && s.b.version == 0
    && s.a.link.Down? && s.b.link.Down?
  }

  ghost predicate LinkRun(h: Digest, full: bool, run: seq<Trackers>) {
    && run != [] && Init(run[0])
    && forall i :: 0 < i < |run| ==> NextAt(h, full, run, i)
  }

  ghost predicate NextAt(h: Digest, full: bool, run: seq<Trackers>, i: int)
    requires 0 < i < |run|
  {
    Next(h, full, run[i - 1], run[i])
  }

  /** Printable, and every account has credentials. */
  ghost predicate Sound(s: State) {
    Printable(s) && forall n :: n in s.peers ==> Visible(s.peers[n])
  }

  // ---------- The facts replication promises to spread ----------

  predicate Tracked(full: bool, a: Atom) {
    Core(a) || (full && !a.OwnerAtom?)
  }

  ghost predicate Sub(full: bool, s: State, t: State) {
    forall a :: Tracked(full, a) && Has(s, a) ==> Has(t, a)
  }

  ghost predicate GoodText(text: string) {
    exists s :: Sound(s) && PrintedAs(s, text)
  }

  lemma GoodTextPayload(text: string) returns (s: State)
    requires GoodText(text) && |text| <= MAX_LL
    ensures Sound(s) && PrintedAs(s, text)
    ensures ParseText(text).ok && Payload(text) == Wire(s)
  {
    s :| Sound(s) && PrintedAs(s, text);
    MergeOfPrintout(s, s, text);
  }

  lemma WireHas(s: State, a: Atom)
    requires Sound(s) && !a.OwnerAtom?
    ensures Has(Wire(s), a) <==> Has(s, a)
  {
  }

  /** A printed state carries every tracked fact. */
  lemma PrintCarries(full: bool, s: State, text: string)
    requires Sound(s) && PrintedAs(s, text) && |text| <= MAX_LL
    ensures ParseText(text).ok && Sub(full, s, Payload(text))
  {
    MergeOfPrintout(s, s, text);
    forall a | Tracked(full, a) && Has(s, a) ensures Has(Payload(text), a) {
      WireHas(s, a);
    }
  }

  lemma ExecKeepsSound(h: Digest, s: State, c: Command)
    requires HexDigest(h) && Sound(s) && Wellformed(c)
    ensures Sound(Exec(h, s, c).state)
  {
    ExecKeepsPrintable(h, s, c);
    ExecKeepsVisible(h, s, c);
  }

  lemma ReceiveKeepsSound(n: Node, text: string)
    requires Sound(n.state) && GoodText(text) && |text| <= MAX_LL
    ensures Sound(Receive(n, text).state)
  {
    var s := GoodTextPayload(text);
    WireKeepsPrintable(s);
    JoinKeepsPrintable(n.state, Wire(s));
  }

  lemma HarmlessKeepsSound(n: Node, text: string)
    requires Sound(n.state) && Harmless(text)
    ensures Sound(Receive(n, text).state)
  {
    JoinKeepsPrintable(n.state, Payload(text));
  }

  // ---------- The invariant ----------

  /** What the phase of `me`'s link says about what `peer` already holds. */
  ghost predicate Pushed(full: bool, me: Node, peer: Node) {
    match me.link
    case Idle(last) => last <= me.version && (last == me.version != 0 ==> Sub(full, me.state, peer.state))
    case Noticed(v) => v <= me.version
    case Sent(v, text) =>
      && v <= me.version && GoodText(text)
      && (v == me.version && Fits(text) ==> Sub(full, me.state, Payload(text)))
    case Acked(v) => v <= me.version && (v == me.version ==> Sub(full, me.state, peer.state))
    case _ => true
  }

  predicate PastPull(p: Phase) {
    p.Idle? || p.Noticed? || p.Sent? || p.Acked?
  }

  /** What `me` pulled from `peer` is still all `peer` has while `peer` is at version 0. */
  ghost predicate PulledAll(full: bool, me: Node, peer: Node) {
    && (me.link.Pulled? ==> GoodText(me.link.reply))
    && (peer.version == 0 ==>
          && (me.link.Pulled? && Fits(me.link.reply) ==> Sub(full, peer.state, Payload(me.link.reply)))
          && (PastPull(me.link) ==> Sub(full, peer.state, me.state)))
  }

  ghost predicate Half(full: bool, me: Node, peer: Node) {
    Sound(me.state) && Pushed(full, me, peer) && PulledAll(full, me, peer)
  }

  ghost predicate LinksInv(full: bool, s: Trackers) {
    && Half(full, s.a, s.b) && Half(full, s.b, s.a)
  }

  /** A node moved on: nothing tracked was lost, and a new fact means a new version. */
  ghost predicate Grew(full: bool, n: Node, n': Node) {
    && n.version <= n'.version
    && Sub(full, n.state, n'.state)
    && (n'.version == n.version ==> Sub(full, n'.state, n.state))
  }

  lemma ClientGrows(h: Digest, full: bool, n: Node, c: Command, n': Node)
    requires c.UploadFile? ==> c.numPieces >= 0
    requires full ==> !Removes(c)
    requires n'.state == Exec(h, n.state, c).state
    requires n'.version == n.version + if Exec(h, n.state, c).ok then 1 else 0
    ensures Grew(full, n, n')
  {
    RejectedChangesNothing(h, n.state, c);
    forall a | Tracked(full, a) && Has(n.state, a) ensures Has(n'.state, a) {
      ExecKeepsAtom(h, n.state, c, a);
    }
  }

  lemma ReceiveGrows(full: bool, n: Node, text: string)
    requires ParseText(text).ok
    ensures Grew(full, n, Receive(n, text))
    ensures Sub(full, Payload(text), Receive(n, text).state)
  {
    HasJoinAll(n.state, Payload(text));
  }

  /** When both sides only moved on and a link kept its phase, its half of the invariant stands. */
  lemma HalfStable(full: bool, me: Node, peer: Node, me': Node, peer': Node)
    requires Half(full, me, peer)
    requires Grew(full, me, me') && Grew(full, peer, peer') && me'.link == me.link
    requires Sound(me'.state)
    ensures Half(full, me', peer')
  {
  }

  lemma StepKeepsHalves(h: Digest, full: bool, x: Action, me: Node, peer: Node,
                        me': Node, peer': Node)
    requires HexDigest(h)
    requires Half(full, me, peer) && Half(full, peer, me)
    requires Act(h, full, x, me, peer, me', peer')
    ensures Half(full, me', peer') && Half(full, peer', me')
  {
    match x
    case Client(c) =>
      ClientGrows(h, full, me, c, me');
      ExecKeepsSound(h, me.state, c);
      HalfStable(full, me, peer, me', peer');
      HalfStable(full, peer, me, peer', me');
    case Dial =>
    case Answer(text) =>
      AnswerKeeps(full, me, peer, text);
    case Pull =>
      PullKeeps(full, me, peer);
    case Notice =>
    case Serialise(text) =>
      SerialiseKeeps(full, me, peer, text);
    case Deliver =>
      DeliverKeeps(full, me, peer);
    case Ack =>
    case Drop =>
    case Foreign(text) =>
      ReceiveGrows(full, me, text);
      HarmlessKeepsSound(me, text);
      HalfStable(full, me, peer, me', peer');
      HalfStable(full, peer, me, peer', me');
  }

  lemma AnswerKeeps(full: bool, me: Node, peer: Node, text: string)
    requires Half(full, me, peer) && Half(full, peer, me)
    requires PrintedAs(peer.state, text)
    ensures Half(full, me.(link := Pulled(text)), peer)
  {
    if Fits(text) {
      PrintCarries(full, peer.state, text);
    }
  }

  lemma PullKeeps(full: bool, me: Node, peer: Node)
    requires Half(full, me, peer) && Half(full, peer, me)
    requires me.link.Pulled? && Fits(me.link.reply)
    ensures Half(full, Receive(me, me.link.reply).(link := Idle(0)), peer)
    ensures Half(full, peer, Receive(me, me.link.reply).(link := Idle(0)))
  {
    var text := me.link.reply;
    var s := GoodTextPayload(text);
    ReceiveGrows(full, me, text);
    ReceiveKeepsSound(me, text);
    HalfStable(full, peer, me, peer, Receive(me, text));
  }

  lemma SerialiseKeeps(full: bool, me: Node, peer: Node, text: string)
    requires Half(full, me, peer) && Half(full, peer, me)
    requires me.link.Noticed? && PrintedAs(me.state, text)
    ensures Half(full, me.(link := Sent(me.link.v, text)), peer)
    ensures Half(full, peer, me.(link := Sent(me.link.v, text)))
  {
    if Fits(text) {
      PrintCarries(full, me.state, text);
    }
  }

  lemma DeliverKeeps(full: bool, me: Node, peer: Node)
    requires Half(full, me, peer) && Half(full, peer, me)
    requires me.link.Sent? && Fits(PushFrame(me.link.text))
    ensures Half(full, me.(link := Acked(me.link.v)), Receive(peer, me.link.text))
    ensures Half(full, Receive(peer, me.link.text), me.(link := Acked(me.link.v)))
  {
    Handing(full, me, peer);
    HalfStable(full, peer, me, Receive(peer, me.link.text), me);
    HandedHalf(full, me, peer);
    PhaseElsewhere(full, me, Receive(peer, me.link.text));
  }

  /** What the delivery does for the peer. */
  lemma Handing(full: bool, me: Node, peer: Node)
    requires Half(full, me, peer) && Sound(peer.state) && me.link.Sent? && Fits(PushFrame(me.link.text))
    ensures var peer' := Receive(peer, me.link.text);
      Sound(peer'.state) && Grew(full, peer, peer') && Sub(full, Payload(me.link.text), peer'.state)
  {
    var s := GoodTextPayload(me.link.text);
    ReceiveGrows(full, peer, me.link.text);
    ReceiveKeepsSound(peer, me.link.text);
  }

  /** And for the sender, which now knows it. */
  lemma HandedHalf(full: bool, me: Node, peer: Node)
    requires Half(full, me, peer) && Sound(peer.state) && me.link.Sent? && Fits(PushFrame(me.link.text))
    ensures Half(full, me.(link := Acked(me.link.v)), Receive(peer, me.link.text))
  {
    Handing(full, me, peer);
  }

  lemma PhaseElsewhere(full: bool, me: Node, peer: Node)
    requires Half(full, peer, me) && me.link.Sent?
    ensures Half(full, peer, me.(link := Acked(me.link.v)))
  {
  }

  lemma {:induction false} RunKeepsLinks(h: Digest, full: bool, run: seq<Trackers>, i: nat)
    requires HexDigest(h) && LinkRun(h, full, run) && i < |run|
    ensures LinksInv(full, run[i])
  {
    if i == 0 {
      InitLinks(full, run[0]);
    } else {
      RunKeepsLinks(h, full, run, i - 1);
      LinksAt(h, full, run, i);
    }
  }

  lemma InitLinks(full: bool, s: Trackers)
    requires Init(s)
    ensures LinksInv(full, s)
  {
  }

  lemma LinksAt(h: Digest, full: bool, run: seq<Trackers>, i: nat)
    requires HexDigest(h) && LinkRun(h, full, run) && 0 < i < |run| && LinksInv(full, run[i - 1])
    ensures LinksInv(full, run[i])
  {
    assert NextAt(h, full, run, i);
    NextKeepsLinks(h, full, run[i - 1], run[i]);
  }

  lemma NextKeepsLinks(h: Digest, full: bool, s: Trackers, s': Trackers)
    requires HexDigest(h) && LinksInv(full, s) && Next(h, full, s, s')
    ensures LinksInv(full, s')
  {
    var x :| Act(h, full, x, s.a, s.b, s'.a, s'.b)
          || Act(h, full, x, s.b, s.a, s'.b, s'.a);
    if Act(h, full, x, s.a, s.b, s'.a, s'.b) {
      StepKeepsHalves(h, full, x, s.a, s.b, s'.a, s'.b);
    } else {
      StepKeepsHalves(h, full, x, s.b, s.a, s'.b, s'.a);
    }
  }

  // ---------- Convergence ----------

  /** The link is up and sees nothing to push. */
  predicate Settled(n: Node) {
    n.link.Idle? && n.link.last == n.version
  }

  lemma SettledHalf(full: bool, me: Node, peer: Node)
    requires Half(full, me, peer) && Half(full, peer, me)
    requires Settled(me) && Settled(peer)
    ensures Sub(full, me.state, peer.state)
  {
  }

  /** The two trackers agree on every name, group, file and index entry. */
  ghost predicate SameCore(s: State, t: State) {
    && s.peers.Keys == t.peers.Keys && s.groups.Keys == t.groups.Keys && s.files.Keys == t.files.Keys
    && forall g, f :: GroupHasFile(s, g, f) <==> GroupHasFile(t, g, f)
  }

  /** They also agree on who is in each group, who asked to be, and who seeds each file. */
  ghost predicate SameMembership(s: State, t: State) {
    && (forall g :: g in s.groups && g in t.groups ==>
          && s.groups[g].participants == t.groups[g].participants
          && s.groups[g].applicants == t.groups[g].applicants)
    && (forall k :: k in s.files && k in t.files ==> s.files[k].seeders == t.files[k].seeders)
  }

  lemma SubBothWays(full: bool, s: State, t: State)
    requires Sub(full, s, t) && Sub(full, t, s)
    ensures SameCore(s, t)
    ensures full ==> SameMembership(s, t)
  {
    SubCore(full, s, t);
    SubCore(full, t, s);
    if full {
      SubMembership(s, t);
      SubMembership(t, s);
    }
  }

  lemma SubCore(full: bool, s: State, t: State)
    requires Sub(full, s, t)
    ensures s.peers.Keys <= t.peers.Keys && s.groups.Keys <= t.groups.Keys && s.files.Keys <= t.files.Keys
    ensures forall g, f :: GroupHasFile(s, g, f) ==> GroupHasFile(t, g, f)
  {
    forall n | n in s.peers ensures n in t.peers {
      assert Has(s, UserAtom(n));
    }
    forall g | g in s.groups ensures g in t.groups {
      assert Has(s, GroupAtom(g));
    }
    forall k | k in s.files ensures k in t.files {
      assert Has(s, FileAtom(k));
    }
    forall g, f | GroupHasFile(s, g, f) ensures GroupHasFile(t, g, f) {
      assert Has(s, IndexAtom(g, f));
    }
  }

  lemma SubMembership(s: State, t: State)
    requires Sub(true, s, t)
    ensures forall g :: g in s.groups && g in t.groups ==>
      s.groups[g].participants <= t.groups[g].participants && s.groups[g].applicants <= t.groups[g].applicants
    ensures forall k :: k in s.files && k in t.files ==> s.files[k].seeders <= t.files[k].seeders
  {
    forall g, u | g in s.groups && g in t.groups && u in s.groups[g].participants
      ensures u in t.groups[g].participants
    {
      assert Has(s, MemberAtom(g, u));
    }
    forall g, u | g in s.groups && g in t.groups && u in s.groups[g].applicants
      ensures u in t.groups[g].applicants
    {
      assert Has(s, ApplicantAtom(g, u));
    }
    forall k, u | k in s.files && k in t.files && u in s.files[k].seeders
      ensures u in t.files[k].seeders
    {
      assert Has(s, SeederAtom(k, u));
    }
  }

  /**
   * Over every run, with links dropping, and old pushes or other sound state messages arriving from
   * anyone at any time: whenever both links are up and see nothing to push, the trackers hold the same
   * names, groups, files and index; and when no command of the run removed anything, the same members,
   * applicants and seeders.
   */
  lemma Convergence(h: Digest, full: bool, run: seq<Trackers>, i: nat)
    requires HexDigest(h) && LinkRun(h, full, run) && i < |run|
    requires Settled(run[i].a) && Settled(run[i].b)
    ensures SameCore(run[i].a.state, run[i].b.state)
    ensures full ==> SameMembership(run[i].a.state, run[i].b.state)
  {
    var s := run[i];
    RunKeepsLinks(h, full, run, i);
    SettledHalf(full, s.a, s.b);
    SettledHalf(full, s.b, s.a);
    SubBothWays(full, s.a.state, s.b.state);
  }

  // ---------- Messages with a bad line ----------

  /**
   * A refused message moves no version, so a link that sees nothing to push still sees nothing. It leaves
   * the trackers agreeing exactly when the records before its bad line name nothing new.
   */
  lemma RefusedMessageDisagreesIff(n: Node, text: string)
    requires Settled(n) && !ParseText(text).ok
    ensures Settled(Receive(n, text))
    ensures SameCore(Receive(n, text).state, n.state) <==> Sub(false, Payload(text), n.state)
  {
    var j, p := Receive(n, text).state, Payload(text);
    HasJoinAll(n.state, p);
    if Sub(false, p, n.state) {
      SubBothWays(false, j, n.state);
    }
    if SameCore(j, n.state) {
      forall a | Core(a) && Has(p, a) ensures Has(n.state, a) {
        assert Has(j, a);
        assert a.IndexAtom? ==> GroupHasFile(j, a.gid, a.fname);
      }
    }
  }

  /** Two empty trackers with nothing to push, and a message that makes them differ unnoticed. */
  lemma RefusedMessageUnnoticed()
    ensures var n := Node(EMPTY, 0, Idle(0));
      && Settled(n) && Settled(Receive(n, CUT_SHORT))
      && !SameCore(Receive(n, CUT_SHORT).state, n.state)
  {
    RefusedPayloadLeavesItsPrefix(0);
  }
}
