/** The nested retry loops of one worker for one piece. */
module Retry {
  import opened Text
  import opened Pieces
  import opened Transfer

  /** How one try of one peer ends. */
  datatype TryResult =
    | NoReply      // socket, address, connection, send or receive failed: costs nothing
    | BadPiece     // hash mismatch, or the output file could not be written: costs one attempt
    | Fetched

  function Identity(n: nat): (s: seq<nat>)
    ensures |s| == n && forall i :: 0 <= i < n ==> s[i] == i
  {
    if n == 0 then [] else Identity(n - 1) + [n - 1]
  }

  /** The peers in the order worker `w` asks them. */
  function Rotation(peers: nat, w: nat): (order: seq<nat>)
    requires peers > 0
    ensures |order| == peers
  {
    var ids := Identity(peers);
    ids[w % peers..] + ids[..w % peers]
  }

  /** The rotated order lists every peer exactly once, each worker starting at its own. */
  lemma RotationIsPermutation(peers: nat, w: nat)
    requires peers > 0
    ensures multiset(Rotation(peers, w)) == multiset(Identity(peers))
    ensures forall p :: 0 <= p < peers ==> p in Rotation(peers, w)
    ensures Rotation(peers, w)[0] == w % peers
  {
    var ids, r, order := Identity(peers), w % peers, Rotation(peers, w);
    assert ids == ids[..r] + ids[r..];
    forall p | 0 <= p < peers ensures p in order {
      assert order[if p >= r then p - r else p + peers - r] == p;
    }
  }

  /** The rotation agrees with the peer an interleaved worker asks at each position. */
  lemma RotationAt(j: Job, w: nat, k: nat)
    requires 0 < j.peers && k < j.peers
    ensures Rotation(j.peers, w)[k] == PeerAt(j, w, k)
  {
    var r := w % j.peers;
    ModOnce(r + k, j.peers);
    if r + k < j.peers {
      assert Rotation(j.peers, w)[k] == Identity(j.peers)[r + k];
    } else {
      assert Rotation(j.peers, w)[k] == Identity(j.peers)[r + k - j.peers];
    }
  }

  function Repeat(order: seq<nat>, passes: nat): (s: seq<nat>)
    ensures passes > 0 ==> forall p :: p in order ==> p in s
  {
    if passes == 0 then [] else Repeat(order, passes - 1) + order
  }

  lemma {:induction false} RepeatLength(order: seq<nat>, passes: nat)
    ensures |Repeat(order, passes)| == passes * |order|
  {
    if passes > 0 {
      RepeatLength(order, passes - 1);
      assert passes * |order| == (passes - 1) * |order| + |order|;
    }
  }

  function CountOf(s: seq<nat>, p: nat): nat {
    multiset(s)[p]
  }

  lemma CountConcat(a: seq<nat>, b: seq<nat>, p: nat)
    ensures CountOf(a + b, p) == CountOf(a, p) + CountOf(b, p)
  {
    assert multiset(a + b) == multiset(a) + multiset(b);
  }

  lemma OnceInRotation(peers: nat, w: nat, p: nat)
    requires p < peers
    ensures CountOf(Rotation(peers, w), p) == 1
  {
    RotationIsPermutation(peers, w);
    IdentityOnce(peers, p);
  }

  /** In `passes` passes over the rotation every listed peer is asked exactly `passes` times. */
  lemma {:induction false} AskedEachPass(peers: nat, w: nat, passes: nat, p: nat)
    requires p < peers
    ensures CountOf(Repeat(Rotation(peers, w), passes), p) == passes
  {
    if passes > 0 {
      AskedEachPass(peers, w, passes - 1, p);
      OnceInRotation(peers, w, p);
      CountConcat(Repeat(Rotation(peers, w), passes - 1), Rotation(peers, w), p);
    }
  }

  lemma {:induction false} IdentityOnce(n: nat, p: nat)
    requires p < n
    ensures CountOf(Identity(n), p) == 1
  {
    if p == n - 1 {
      var ids := Identity(n - 1);
      assert p !in ids;
    } else {
      IdentityOnce(n - 1, p);
    }
  }

  /**
   * Fetches one piece, whatever each try comes to. `bad` counts the tries that ended in a bad piece and
   * `before` those of them before the last pass. Giving up means complete passes over all peers which
   * together with the bad tries are at least five, and before the last of them were fewer; success ends
   * a pass that began with fewer than five used up, at the peer that delivered.
   */
  method FetchPiece(peers: nat, workerId: nat)
    returns (success: bool, ghost passes: nat, ghost tried: seq<nat>, ghost last: nat, ghost bad: nat,
             ghost before: nat)
    requires peers > 0
    ensures before <= bad
    ensures !success ==> tried == Repeat(Rotation(peers, workerId), passes)
    ensures !success ==> 1 <= passes && passes + bad >= 5 && passes - 1 + before < 5
    ensures success ==> passes + before < 5 && last < peers
    ensures success ==> tried == Repeat(Rotation(peers, workerId), passes) + Rotation(peers, workerId)[..last + 1]
    ensures |tried| <= MAX_RETRIES * peers
  {
    var peerOrder := Identity(peers);
    peerOrder := peerOrder[workerId % peers..] + peerOrder[..workerId % peers];
    ghost var order := Rotation(peers, workerId);
    var attempt := 0;
    success, passes, tried, last, bad, before := false, 0, [], 0, 0, 0;
    while attempt < MAX_RETRIES && !success
      invariant peerOrder == order
      invariant before <= bad && passes <= MAX_RETRIES
      invariant !success ==> attempt == passes + bad
      invariant !success && passes == 0 ==> bad == 0
      invariant !success && passes > 0 ==> passes - 1 + before < MAX_RETRIES
      invariant !success ==> tried == Repeat(order, passes)
      invariant success ==> passes + before < MAX_RETRIES && last < peers
      invariant success ==> tried == Repeat(order, passes) + order[..last + 1]
      decreases MAX_RETRIES - attempt, !success
    {
      before := bad;
      ghost var now, wrong;
      success, attempt, now, last, wrong := OnePass(peerOrder, attempt);
      tried, bad := tried + now, bad + wrong;
      if !success {
        attempt := attempt + 1;
        passes := passes + 1;
      }
    }
    RepeatLength(order, passes);
    TriesBound(passes, peers);
  }

  /** One pass over the peers, up to the first that delivers. */
  method OnePass(peerOrder: seq<nat>, start: nat)
    returns (success: bool, attempt: nat, ghost tried: seq<nat>, ghost last: nat, ghost bad: nat)
    ensures attempt == start + bad
    ensures if success then last < |peerOrder| && tried == peerOrder[..last + 1] else tried == peerOrder
  {
    success, attempt, tried, last, bad := false, start, [], 0, 0;
    var k := 0;
    while k < |peerOrder|
      invariant 0 <= k <= |peerOrder|
      invariant attempt == start + bad && !success
      invariant tried == peerOrder[..k]
    {
      var outcome: TryResult := *;
      tried := tried + [peerOrder[k]];
      assert tried == peerOrder[..k + 1];
      if outcome.NoReply? {
        k := k + 1;
        continue;
      }
      if outcome.BadPiece? {
        attempt := attempt + 1;
        bad := bad + 1;
        k := k + 1;
        continue;
      }
      success, last := true, k;
      break;
    }
  }

  lemma TriesBound(passes: nat, peers: nat)
    ensures passes <= MAX_RETRIES ==> passes * peers <= MAX_RETRIES * peers
    ensures passes < MAX_RETRIES ==> passes * peers + peers <= MAX_RETRIES * peers
  {
    if passes < MAX_RETRIES {
      assert (passes + 1) * peers == passes * peers + peers;
      assert (passes + 1) * peers <= MAX_RETRIES * peers;
    }
  }
}
