/** What an acknowledgement of the present version means: the peer was handed the present state. */
module Acknowledged {
  import opened Text
  import opened States
  import opened Records
  import opened Commands
  import opened Merging
  import opened Replication

  /** The text is a printout of the state, or of one that differs in empty index entries only. */
  ghost predicate Shows(text: string, s: State) {
    exists s0 :: PrintedAs(s0, text) && SameButEmpty(s0, s)
  }

  /** A node moved on, and if its version did not, neither did its state. */
  ghost predicate NodeLater(n: Node, n': Node) {
    && n.version <= n'.version
    && (n.version == n'.version ==> SameButEmpty(n.state, n'.state))
  }

  lemma ClientLater(h: Digest, n: Node, c: Command, n': Node)
    requires c.UploadFile? ==> c.numPieces >= 0
    requires n'.state == Exec(h, n.state, c).state
    requires n'.version == n.version + if Exec(h, n.state, c).ok then 1 else 0
    ensures NodeLater(n, n')
  {
    RejectedChangesNothing(h, n.state, c);
  }

  lemma ReceiveLater(n: Node, text: string)
    requires ParseText(text).ok
    ensures NodeLater(n, Receive(n, text)) && Receive(n, text).link == n.link
  {
    if Covers(n.state, Payload(text)) {
      CoveredJoin(n.state, Payload(text));
    }
  }

  lemma ShowsOn(text: string, s: State, t: State)
    requires Shows(text, s) && SameButEmpty(s, t)
    ensures Shows(text, t)
  {
    var s0 :| PrintedAs(s0, text) && SameButEmpty(s0, s);
    SameButEmptyChain(s0, s, t);
  }

  // ---------- One node's part of a step ----------

  /** The version a link has read is one the node has had. */
  predicate PastVersion(n: Node) {
    match n.link
    case Idle(last) => last <= n.version
    case Noticed(v) => v <= n.version
    case Sent(v, _) => v <= n.version
    case Acked(v) => v <= n.version
    case _ => true
  }

  /** A text sent for the present version shows the present state. */
  ghost predicate SentCurrent(n: Node) {
    n.link.Sent? && n.link.v == n.version ==> Shows(n.link.text, n.state)
  }

  /** The link believes that the peer has the present version, and that version is one with changes. */
  predicate Confirmed(n: Node) {
    match n.link
    case Idle(last) => last == n.version != 0
    case Acked(v) => v == n.version != 0
    case _ => false
  }

  /** How one node may change in a step. */
  ghost predicate Moves(n: Node, n': Node) {
    || (n'.link == n.link && NodeLater(n, n'))
    || (!n'.link.Sent? && !Confirmed(n'))
    || (n.link.Noticed? && n'.link.Sent? && n'.version == n.version && n'.state == n.state
        && PrintedAs(n.state, n'.link.text))
    || (n.link.Sent? && n' == n.(link := Acked(n.link.v)))
    || (n.link.Acked? && n' == n.(link := Idle(n.link.v)))
  }

  lemma ActMoves(h: Digest, full: bool, x: Action, me: Node, peer: Node,
                 me': Node, peer': Node)
    requires Half(full, me, peer)
    requires Act(h, full, x, me, peer, me', peer')
    ensures Moves(me, me') && peer'.link == peer.link && NodeLater(peer, peer')
    ensures me.link.Sent? && me'.link.Acked? ==> peer' == Receive(peer, me.link.text)
  {
    match x
    case Client(c) => ClientLater(h, me, c, me');
    case Deliver =>
      var s := GoodTextPayload(me.link.text);
      ReceiveLater(peer, me.link.text);
    case Foreign(text) =>
      ReceiveLater(me, text);
    case _ =>
  }

  lemma MovesKeepSent(n: Node, n': Node)
    requires PastVersion(n) && SentCurrent(n) && Moves(n, n')
    ensures SentCurrent(n')
  {
    if n'.link.Sent? && n'.link.v == n'.version {
      if n.link.Noticed? {
        assert SameButEmpty(n.state, n.state);
      } else {
        ShowsOn(n.link.text, n.state, n'.state);
      }
    }
  }

  // ---------- Runs ----------

  function Side(s: Trackers, first: bool): Node {
    if first then s.a else s.b
  }

  lemma SideMoves(h: Digest, full: bool, s: Trackers, s': Trackers, first: bool)
    requires HexDigest(h) && LinksInv(full, s) && Next(h, full, s, s')
    ensures PastVersion(Side(s, first)) && Moves(Side(s, first), Side(s', first))
    ensures var n, n' := Side(s, first), Side(s', first);
      n.link.Sent? && n'.link.Acked? ==> Side(s', !first) == Receive(Side(s, !first), n.link.text)
  {
    var x :| Act(h, full, x, s.a, s.b, s'.a, s'.b)
          || Act(h, full, x, s.b, s.a, s'.b, s'.a);
    if Act(h, full, x, s.a, s.b, s'.a, s'.b) {
      ActMoves(h, full, x, s.a, s.b, s'.a, s'.b);
    } else {
      ActMoves(h, full, x, s.b, s.a, s'.b, s'.a);
    }
  }

  /** In step k the node's text was delivered to the peer, which merged it. */
  ghost predicate HandedOver(run: seq<Trackers>, k: nat, first: bool, text: string) {
    && k + 1 < |run|
    && Side(run[k], first).link.Sent? && Side(run[k], first).link.text == text
    && Side(run[k + 1], first).link == Acked(Side(run[k], first).link.v)
    && Side(run[k + 1], !first) == Receive(Side(run[k], !first), text)
  }

  ghost predicate WasHandedOver(run: seq<Trackers>, i: nat, first: bool, s: State) {
    exists k: nat, text :: k < i && HandedOver(run, k, first, text) && Shows(text, s)
  }

  /** What an invariant over the moments of a run says about one side. */
  ghost predicate Trusted(run: seq<Trackers>, i: nat, first: bool)
    requires i < |run|
  {
    && SentCurrent(Side(run[i], first))
    && (Confirmed(Side(run[i], first)) ==> WasHandedOver(run, i, first, Side(run[i], first).state))
  }

  lemma HandedOn(run: seq<Trackers>, i: nat, first: bool, s: State, t: State)
    requires WasHandedOver(run, i, first, s) && SameButEmpty(s, t)
    ensures WasHandedOver(run, i + 1, first, t)
  {
    var k: nat, text :| k < i && HandedOver(run, k, first, text) && Shows(text, s);
    ShowsOn(text, s, t);
  }

  lemma SideMovesAt(h: Digest, full: bool, run: seq<Trackers>, i: nat, first: bool)
    requires HexDigest(h) && LinkRun(h, full, run) && i + 1 < |run|
    ensures PastVersion(Side(run[i], first)) && Moves(Side(run[i], first), Side(run[i + 1], first))
    ensures var n, n' := Side(run[i], first), Side(run[i + 1], first);
      n.link.Sent? && n'.link.Acked? ==> Side(run[i + 1], !first) == Receive(Side(run[i], !first), n.link.text)
  {
    RunKeepsLinks(h, full, run, i);
    assert NextAt(h, full, run, i + 1);
    SideMoves(h, full, run[i], run[i + 1], first);
  }

  lemma TrustedStep(h: Digest, full: bool, run: seq<Trackers>, i: nat, first: bool)
    requires HexDigest(h) && LinkRun(h, full, run) && i + 1 < |run| && Trusted(run, i, first)
    ensures Trusted(run, i + 1, first)
  {
    var n, n' := Side(run[i], first), Side(run[i + 1], first);
    SideMovesAt(h, full, run, i, first);
    MovesKeepSent(n, n');
    if Confirmed(n') {
      if n.link.Sent? {
        assert HandedOver(run, i, first, n.link.text);
      } else {
        HandedOn(run, i, first, n.state, n'.state);
      }
    }
  }

  lemma {:induction false} AlwaysTrusted(h: Digest, full: bool, run: seq<Trackers>, i: nat, first: bool)
    requires HexDigest(h) && LinkRun(h, full, run) && i < |run|
    ensures Trusted(run, i, first)
  {
    if i > 0 {
      AlwaysTrusted(h, full, run, i - 1, first);
      TrustedStep(h, full, run, i - 1, first);
    }
  }

  /**
   * Over every run, removals and faults included: when a link holds the acknowledgement of the present
   * version, or rests at it, and that version is not the initial one, then some earlier step of the run
   * handed the peer a printout of the present state, empty index entries aside.
   */
  lemma AckedIsCurrent(h: Digest, full: bool, run: seq<Trackers>, i: nat, first: bool)
    returns (k: nat, text: string, s: State)
    requires HexDigest(h) && LinkRun(h, full, run) && i < |run| && Confirmed(Side(run[i], first))
    ensures k < i && HandedOver(run, k, first, text)
    ensures PrintedAs(s, text) && SameButEmpty(s, Side(run[i], first).state)
  {
    AlwaysTrusted(h, full, run, i, first);
    k, text :| k < i && HandedOver(run, k, first, text) && Shows(text, Side(run[i], first).state);
    s :| PrintedAs(s, text) && SameButEmpty(s, Side(run[i], first).state);
  }
}
