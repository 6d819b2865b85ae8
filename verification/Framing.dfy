/** Length-prefixed messages over connections that move bytes in arbitrary pieces. */
module Framing {
  import opened Text
  import opened Pieces

  const WORD32 := 0x1_0000_0000

  /** A 32-bit length in network byte order. */
  function Prefix(n: nat): (b: Bytes)
    requires n < WORD32
    ensures |b| == 4
  {
    var high := n / 256 / 256;
    [(high / 256) as byte, (high % 256) as byte, (n / 256 % 256) as byte, (n % 256) as byte]
  }

  function PrefixValue(b: Bytes): (n: nat)
    requires |b| == 4
    ensures n < WORD32
  {
    ((b[0] as int * 256 + b[1] as int) * 256 + b[2] as int) * 256 + b[3] as int
  }

  lemma PrefixRoundTrip(n: nat)
    requires n < WORD32
    ensures PrefixValue(Prefix(n)) == n
  {
  }

  /** The first byte counts most: a longer message never has a smaller prefix, byte by byte from the left. */
  lemma MostSignificantFirst(m: nat, n: nat)
    requires m < n < WORD32
    ensures var a, b := Prefix(m), Prefix(n);
      exists i :: 0 <= i < 4 && a[..i] == b[..i] && a[i] < b[i]
  {
    var a, b := Prefix(m), Prefix(n);
    PrefixRoundTrip(m);
    PrefixRoundTrip(n);
    if a[0] != b[0] {
      assert a[..0] == b[..0] && a[0] < b[0];
    } else if a[1] != b[1] {
      assert a[..1] == b[..1] && a[1] < b[1];
    } else if a[2] != b[2] {
      assert a[..2] == b[..2] && a[2] < b[2];
    } else {
      assert a[..3] == b[..3] && a[3] < b[3];
    }
  }

  /** What goes on the wire for one message; the length is cut to 32 bits. */
  function Frame(payload: Bytes): Bytes {
    Prefix(|payload| % WORD32) + payload
  }

  /** One message taken off the front of the incoming bytes, and the bytes after it. */
  function Unframe(input: Bytes, maxLen: nat): Option<(Bytes, Bytes)> {
    if |input| < 4 then None
    else
      var len := PrefixValue(input[..4]);
      if len > maxLen || |input| - 4 < len then None
      else Some((input[4..4 + len], input[4 + len..]))
  }

  /** A message is received as it was sent exactly when it is within the receiver's cap. */
  lemma FrameRoundTripIff(payload: Bytes, rest: Bytes, maxLen: nat)
    requires maxLen < WORD32
    ensures Unframe(Frame(payload) + rest, maxLen) == Some((payload, rest)) <==> |payload| <= maxLen
    ensures maxLen < |payload| < WORD32 ==> Unframe(Frame(payload) + rest, maxLen).None?
  {
    var wire, n := Frame(payload) + rest, |payload| % WORD32;
    PrefixRoundTrip(n);
    assert wire[..4] == Prefix(n);
    if |payload| < WORD32 {
      assert n == |payload|;
      assert wire[4..4 + n] == payload && wire[4 + n..] == rest;
    }
  }

  function Frames(ps: seq<Bytes>): Bytes {
    if ps == [] then [] else Frame(ps[0]) + Frames(ps[1..])
  }

  /** All the messages that can be taken off, and what stays behind. */
  function UnframeAll(input: Bytes, maxLen: nat): (seq<Bytes>, Bytes)
    decreases |input|
  {
    match Unframe(input, maxLen)
    case None => ([], input)
    case Some((p, rest)) =>
      var (ps, left) := UnframeAll(rest, maxLen);
      ([p] + ps, left)
  }

  /** Any sequence of messages within the cap arrives complete, in order, and nothing is left over. */
  lemma {:induction false} FramesRoundTrip(ps: seq<Bytes>, maxLen: nat)
    requires maxLen < WORD32
    requires forall i :: 0 <= i < |ps| ==> |ps[i]| <= maxLen
    ensures UnframeAll(Frames(ps), maxLen) == (ps, [])
  {
    if ps != [] {
      FrameRoundTripIff(ps[0], Frames(ps[1..]), maxLen);
      FramesRoundTrip(ps[1..], maxLen);
      assert ps == [ps[0]] + ps[1..];
    }
  }

  /** The receiving end: the bytes the peer delivers before the connection ends or breaks. */
  class Source {
    var input: Bytes

    constructor (bytes: Bytes)
      ensures input == bytes
    {
      input := bytes;
    }

    /** A read returns some of the bytes asked for, as the system pleases, and none only at the end. */
    method Read(n: nat) returns (chunk: Bytes)
      requires n > 0
      modifies this
      ensures |chunk| <= n && old(input) == chunk + input
      ensures chunk == [] <==> old(input) == []
    {
      if input == [] {
        return [];
      }
      var r :| 1 <= r <= n && r <= |input|;
      chunk := input[..r];
      input := input[r..];
    }

    method RecvAll(n: nat) returns (ok: bool, data: Bytes)
      modifies this
      ensures ok <==> n <= |old(input)|
      ensures ok ==> data == old(input)[..n] && input == old(input)[n..]
      ensures !ok ==> input == []
    {
      data := [];
      while |data| < n
        invariant |data| <= n
        invariant data + input == old(input)
        decreases n - |data|
      {
        var chunk := Read(n - |data|);
        if chunk == [] {
          return false, data;
        }
        data := data + chunk;
      }
      ok := true;
    }

    /** Succeeds exactly when a whole message within the cap arrives, and consumes exactly its bytes. */
    method RecvFramed(maxLen: nat) returns (ok: bool, payload: Bytes)
      modifies this
      ensures ok <==> Unframe(old(input), maxLen).Some?
      ensures ok ==> Unframe(old(input), maxLen) == Some((payload, input))
    {
      var head;
      ok, head := RecvAll(4);
      payload := [];
      if !ok {
        return;
      }
      var len := PrefixValue(head);
      if len > maxLen {
        return false, payload;
      }
      if len == 0 {
        assert old(input)[4..4 + len] == payload;
        return true, payload;
      }
      ghost var body := input;
      assert body == old(input)[4..];
      ok, payload := RecvAll(len);
      if ok {
        assert body[..len] == old(input)[4..4 + len];
        assert body[len..] == old(input)[4 + len..];
      }
    }
  }

  lemma Advance(data: Bytes, total: nat, s: nat)
    requires total + s <= |data|
    ensures data[..total] + data[total..][..s] == data[..total + s]
  {
    assert data[total..][..s] == data[total..total + s];
  }

  /** The sending end: what was written, and how much more the connection takes before it breaks. */
  class Sink {
    var output: Bytes
    var capacity: nat

    constructor (capacity: nat)
      ensures output == [] && this.capacity == capacity
    {
      output := [];
      this.capacity := capacity;
    }

    method Send(data: Bytes) returns (sent: nat)
      requires data != []
      modifies this
      ensures sent <= |data| && sent <= old(capacity)
      ensures sent == 0 <==> old(capacity) == 0
      ensures output == old(output) + data[..sent] && capacity == old(capacity) - sent
    {
      sent := 0;
      if capacity > 0 {
        sent :| 1 <= sent <= |data| && sent <= capacity;
      }
      output := output + data[..sent];
      capacity := capacity - sent;
    }

    /** All of the data, however it is split, or a failure when the connection breaks first. */
    method SendAll(data: Bytes) returns (ok: bool)
      modifies this
      ensures ok <==> |data| <= old(capacity)
      ensures ok ==> output == old(output) + data && capacity == old(capacity) - |data|
      ensures !ok ==> output == old(output) + data[..old(capacity)] && capacity == 0
    {
      var total := 0;
      while total < |data|
        invariant 0 <= total <= |data| && total <= old(capacity)
        invariant output == old(output) + data[..total] && capacity == old(capacity) - total
        decreases |data| - total
      {
        var s := Send(data[total..]);
        if s == 0 {
          return false;
        }
        Advance(data, total, s);
        total := total + s;
      }
      ok := true;
    }

    method SendFramed(payload: Bytes) returns (ok: bool)
      modifies this
      ensures ok <==> |payload| + 4 <= old(capacity)
      ensures ok ==> output == old(output) + Frame(payload) && capacity == old(capacity) - |payload| - 4
      ensures !ok ==> output == old(output) + Frame(payload)[..old(capacity)] && capacity == 0
    {
      var head := Prefix(|payload| % WORD32);
      ghost var room := capacity;
      ok := SendAll(head);
      if ok {
        ok := SendAll(payload);
        if !ok {
          assert Frame(payload)[..room] == head + payload[..room - 4];
        }
      } else {
        assert Frame(payload)[..room] == head[..room];
      }
    }
  }
}
