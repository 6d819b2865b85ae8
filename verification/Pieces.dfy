/** Cutting a file into pieces, hashing them, and serving one of them. */
module Pieces {
  import opened Text

  newtype byte = x: int | 0 <= x < 256

  type Bytes = seq<byte>

  const PIECE_SIZE := 512 * 1024

  function PieceCount(size: int): int {
    (size + PIECE_SIZE - 1) / PIECE_SIZE
  }

  function Start(i: nat): nat {
    i * PIECE_SIZE
  }

  function Min(a: int, b: int): int {
    if a < b then a else b
  }

  function End(i: nat, size: nat): int {
    Min((i + 1) * PIECE_SIZE, size)
  }

  /** What a positioned read of one piece size at piece `i` returns; empty past the end. */
  function Piece(data: Bytes, i: nat): Bytes {
    if Start(i) < |data| then data[Start(i)..End(i, |data|)] else []
  }

  /** The pieces before the k-th, one after the other. */
  function Assembled(data: Bytes, k: nat): Bytes {
    if k == 0 then [] else Assembled(data, k - 1) + Piece(data, k - 1)
  }

  /** The pieces partition the file: put together they are the file again. */
  lemma {:induction false} AssembledPrefix(data: Bytes, k: nat)
    ensures Assembled(data, k) == data[..Min(Start(k), |data|)]
  {
    if k > 0 {
      AssembledPrefix(data, k - 1);
      var a, b := Min(Start(k - 1), |data|), Min(Start(k), |data|);
      assert data[..b] == data[..a] + data[a..b];
    }
  }

  lemma PiecesPartition(data: Bytes)
    ensures Assembled(data, PieceCount(|data|)) == data
    ensures forall i :: 0 <= i < PieceCount(|data|) ==> 0 < |Piece(data, i)| <= PIECE_SIZE
  {
    var n := PieceCount(|data|);
    AssembledPrefix(data, n);
    assert n * PIECE_SIZE >= |data| > (n - 1) * PIECE_SIZE || n == 0 == |data|;
    assert data[..|data|] == data;
    forall i | 0 <= i < n
      ensures 0 < |Piece(data, i)| <= PIECE_SIZE
    {
      assert i * PIECE_SIZE <= (n - 1) * PIECE_SIZE;
    }
  }

  /** Hashes a file piece by piece; nothing when it cannot be opened. */
  method Sha1FilePieces(file: Option<Bytes>, hash: Bytes -> string)
    returns (hashes: seq<string>, numPieces: int)
    ensures file.None? ==> hashes == [] && numPieces == 0
    ensures file.Some? ==> numPieces == PieceCount(|file.value|) == |hashes|
    ensures file.Some? ==> forall i :: 0 <= i < numPieces ==> hashes[i] == hash(Piece(file.value, i))
  {
    hashes, numPieces := [], 0;
    if file.None? {
      return;
    }
    var data := file.value;
    numPieces := (|data| + PIECE_SIZE - 1) / PIECE_SIZE;
    var pos := 0;
    var i := 0;
    while i < numPieces
      invariant 0 <= i <= numPieces == PieceCount(|data|)
      invariant pos == Min(Start(i), |data|)
      invariant |hashes| == i
      invariant forall j :: 0 <= j < i ==> hashes[j] == hash(Piece(data, j))
    {
      var n := Min(PIECE_SIZE, |data| - pos);
      if n <= 0 {
        break;
      }
      hashes := hashes + [hash(data[pos..pos + n])];
      pos := pos + n;
      i := i + 1;
    }
  }

  /** The request line a downloader sends for one piece. */
  function PieceRequest(fname: string, i: nat): string {
    "GET_PIECE " + fname + " " + Show(i)
  }

  /** The reply to a request: the bytes of one piece, or a closed connection. */
  function Served(request: string, registry: map<string, string>, disk: map<string, Bytes>): Option<Bytes> {
    var args := Tokens(request);
    if |args| < 3 || args[0] != "GET_PIECE" || args[1] !in registry || registry[args[1]] !in disk then None
    else
      match ParseInt(args[2])
      case None => None
      case Some(index) =>
        if index < 0 || Piece(disk[registry[args[1]]], index) == [] then None
        else Some(Piece(disk[registry[args[1]]], index))
  }

  /** The request asks for piece `i` of `fname`; further words are not looked at. */
  ghost predicate AsksFor(request: string, fname: string, i: int) {
    var t := Tokens(request);
    |t| >= 3 && t[0] == "GET_PIECE" && t[1] == fname && Spells(t[2], i) && MIN_INT <= i <= MAX_INT
  }

  /** Bytes are sent exactly when an existing piece of a registered file on disk is asked for: its bytes. */
  lemma ServedIff(request: string, registry: map<string, string>, disk: map<string, Bytes>, p: Bytes)
    ensures Served(request, registry, disk) == Some(p) <==>
            exists fname: string, i: nat ::
              AsksFor(request, fname, i) && fname in registry && registry[fname] in disk
              && i < PieceCount(|disk[registry[fname]]|) && p == Piece(disk[registry[fname]], i)
  {
    var t := Tokens(request);
    if Served(request, registry, disk) == Some(p) {
      var i := ParseInt(t[2]).value;
      ParseIntIff(t[2], i);
      PieceThere(disk[registry[t[1]]], i);
      assert AsksFor(request, t[1], i);
    }
    if fname: string, i: nat :|
      AsksFor(request, fname, i) && fname in registry && registry[fname] in disk
      && i < PieceCount(|disk[registry[fname]]|) && p == Piece(disk[registry[fname]], i)
    {
      ParseIntIff(t[2], i);
      PieceThere(disk[registry[fname]], i);
    }
  }

  lemma PieceThere(data: Bytes, i: nat)
    ensures Piece(data, i) != [] <==> i < PieceCount(|data|)
  {
    if i < PieceCount(|data|) {
      PiecesPartition(data);
    }
  }

  /** Serves one request; every malformed or unserviceable one just closes the connection. */
  method ServeOne(request: string, registry: map<string, string>, disk: map<string, Bytes>)
    returns (reply: Option<Bytes>)
    ensures reply == Served(request, registry, disk)
  {
    var args := SplitArgs(request);
    if args == [] || args[0] != "GET_PIECE" || |args| < 3 {
      return None;
    }
    var fname := args[1];
    var index := ParseInt(args[2]);
    if index.None? || index.value < 0 {
      return None;
    }
    if fname !in registry {
      return None;
    }
    if registry[fname] !in disk {
      return None;
    }
    var data := disk[registry[fname]];
    var offset := index.value * PIECE_SIZE;
    var n := if offset < |data| then Min(PIECE_SIZE, |data| - offset) else 0;
    if n > 0 {
      assert Piece(data, index.value) == data[offset..offset + n];
      return Some(data[offset..offset + n]);
    }
    reply := None;
  }

  lemma RequestTokens(fname: string, i: nat)
    requires Word(fname)
    ensures Tokens(PieceRequest(fname, i)) == ["GET_PIECE", fname, Show(i)]
  {
    var ts := ["GET_PIECE", fname, Show(i)];
    TokensOfSpaced(ts);
    var us := [fname, Show(i)];
    assert ts[1..] == us && us[1..] == [Show(i)];
    assert Spaced(us) == fname + " " + Show(i);
    assert "GET_PIECE" + " " + (fname + " " + Show(i)) == PieceRequest(fname, i);
  }

  /** A peer that holds the file answers a request with exactly the bytes that were hashed for it. */
  lemma HonestPeerAnswers(fname: string, i: nat, registry: map<string, string>, disk: map<string, Bytes>)
    requires Word(fname) && fname in registry && registry[fname] in disk
    requires i < PieceCount(|disk[registry[fname]]|) && i <= MAX_INT
    ensures Served(PieceRequest(fname, i), registry, disk) == Some(Piece(disk[registry[fname]], i))
  {
    RequestTokens(fname, i);
    ParseShow(i);
    PiecesPartition(disk[registry[fname]]);
  }
}
