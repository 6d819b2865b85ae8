/** The tracker's answer to a download request, and how the downloader reads it. */
module Reply {
  import opened Text
  import opened States
  import opened Records

  datatype Contact = Contact(name: string, ip: string, port: string)

  /** What the downloader takes from a reply. */
  datatype Plan = Plan(size: int, fullhash: string, pieceHashes: seq<string>, contacts: seq<Contact>)

  // ---------- Printing ----------

  /** One line for each connected seeder, in the order the hash set lists them. */
  function PeerLines(peers: map<string, Peer>, order: seq<string>): string {
    if order == [] then ""
    else PeerLines(peers, order[..|order| - 1]) + PeerLine(peers, order[|order| - 1])
  }

  function PeerLine(peers: map<string, Peer>, name: string): string {
    if name in peers && peers[name].connected then
      name + " " + peers[name].hostip + " " + peers[name].hostport + "\n"
    else ""
  }

  function Header(fname: string, f: FileMeta): seq<string> {
    [fname] + SizeOn(f)
  }

  function SizeOn(f: FileMeta): seq<string> {
    ["SIZE", Show(f.size)] + HashOn(f)
  }

  function HashOn(f: FileMeta): seq<string> {
    ["HASH", f.fullhash] + PiecesOn(f)
  }

  function PiecesOn(f: FileMeta): seq<string> {
    ["PIECES", Show(f.numPieces)] + (["PIECE_HASHES"] + f.pieceHashes)
  }

  lemma TwoMore(us: seq<string>, k: string, v: string)
    ensures ("FILE" + Trailing(us)) + (" " + k + " ") + v == "FILE" + Trailing(us + [k, v])
  {
    TrailingAppend(us, k);
    TrailingAppend(us + [k], v);
    assert us + [k] + [v] == us + [k, v];
  }

  /** The line as it is written: the fields glued together with their blanks. */
  lemma HeaderText(fname: string, size: string, full: string, pieces: string)
    ensures "FILE " + fname + " SIZE " + size + " HASH " + full + " PIECES " + pieces + " PIECE_HASHES"
         == "FILE" + Trailing([fname, "SIZE", size, "HASH", full, "PIECES", pieces, "PIECE_HASHES"])
  {
    var last := [fname, "SIZE", size, "HASH", full, "PIECES", pieces];
    OneField(fname);
    Spelled([fname], "SIZE", " SIZE ", size);
    Spelled([fname, "SIZE", size], "HASH", " HASH ", full);
    Spelled([fname, "SIZE", size, "HASH", full], "PIECES", " PIECES ", pieces);
    assert [fname] + ["SIZE", size] == [fname, "SIZE", size];
    assert [fname, "SIZE", size] + ["HASH", full] == [fname, "SIZE", size, "HASH", full];
    assert [fname, "SIZE", size, "HASH", full] + ["PIECES", pieces] == last;
    TrailingAppend(last, "PIECE_HASHES");
    assert last + ["PIECE_HASHES"] == [fname, "SIZE", size, "HASH", full, "PIECES", pieces, "PIECE_HASHES"];
    LastField("FILE", Trailing(last));
  }

  lemma OneField(fname: string)
    ensures "FILE " + fname == "FILE" + Trailing([fname])
  {
    assert Trailing([fname]) == " " + fname + "";
  }

  lemma Spelled(us: seq<string>, k: string, blanked: string, v: string)
    requires blanked == " " + k + " "
    ensures ("FILE" + Trailing(us)) + blanked + v == "FILE" + Trailing(us + [k, v])
  {
    TwoMore(us, k, v);
  }

  lemma LastField(head: string, fields: string)
    ensures head + (fields + " " + "PIECE_HASHES") == (head + fields) + " PIECE_HASHES"
  {
    assert " " + "PIECE_HASHES" == " PIECE_HASHES";
  }

  const PEERS_MARK := "\nPEERS\n"

  /** The whole reply: a line of blank-separated fields, the mark, the peer lines, an empty line. */
  function ReplyText(fname: string, f: FileMeta, peers: map<string, Peer>, order: seq<string>): string {
    "FILE" + Trailing(Header(fname, f)) + PEERS_MARK + (PeerLines(peers, order) + "\n")
  }

  // ---------- Stream extraction ----------

  function SkipSpace(s: string): (r: string)
    ensures |r| <= |s| && (r != "" ==> !IsSpace(r[0]))
  {
    if s == "" || !IsSpace(s[0]) then s else SkipSpace(s[1..])
  }

  /** Length of the run of characters before the first white space. */
  function WordEnd(s: string): (n: nat)
    ensures n <= |s|
    ensures s != "" && !IsSpace(s[0]) ==> n > 0
  {
    if s == "" || IsSpace(s[0]) then 0 else 1 + WordEnd(s[1..])
  }

  /** The next word and the rest, or nothing when only white space is left. */
  function ReadWord(s: string): (r: Option<(string, string)>)
    ensures r.Some? ==> |r.value.1| < |s|
  {
    var t := SkipSpace(s);
    if t == "" then None else Some((t[..WordEnd(t)], t[WordEnd(t)..]))
  }

  function DigitEnd(s: string): (n: nat)
    ensures n <= |s| && Digits(s[..n])
  {
    if s == "" || !IsDigit(s[0]) then 0
    else
      var n := DigitEnd(s[1..]);
      assert forall i :: 0 <= i < n ==> s[1..][..n][i] == s[..n + 1][i + 1];
      n + 1
  }

  /**
   * Extraction of a number into a variable holding `old_`. It takes as many digits as there are;
   * with none it stores 0, out of range the nearest bound, and in both cases the stream fails.
   */
  function ReadNumber(old_: int, s: string): (r: (int, Option<string>))
    ensures r.1.Some? ==> |r.1.value| < |s|
  {
    var t := SkipSpace(s);
    if t == "" then (old_, None)
    else
      var signed := t[0] == '-' || t[0] == '+';
      var body := if signed then t[1..] else t;
      var n := DigitEnd(body);
      if n == 0 then (0, None)
      else
        var magnitude: int := DigitsValue(body[..n]);
        var v := if t[0] == '-' then -magnitude else magnitude;
        if v > MAX_LL then (MAX_LL, None)
        else if v < MIN_LL then (MIN_LL, None)
        else (v, Some(body[n..]))
  }

  // ---------- Parsing ----------

  datatype Fields = Fields(size: int, fullhash: string, numPieces: int)

  /** Keyword by keyword, up to the piece hashes or the first failure of the stream. */
  function ReadFields(f: Fields, s: string): (r: (Fields, Option<string>))
    decreases |s|, 1
  {
    match ReadWord(s)
    case None => (f, None)
    case Some((word, rest)) =>
      if word == "SIZE" then
        var (v, left) := ReadNumber(f.size, rest);
        Continue(f.(size := v), left, |s|)
      else if word == "HASH" then
        match ReadWord(rest)
        case None => (f, None)
        case Some((h, left)) => ReadFields(f.(fullhash := h), left)
      else if word == "PIECES" then
        var (v, left) := ReadNumber(f.numPieces, rest);
        Continue(f.(numPieces := v), left, |s|)
      else if word == "PIECE_HASHES" then (f, Some(rest))
      else ReadFields(f, rest)
  }

  function Continue(f: Fields, left: Option<string>, bound: nat): (r: (Fields, Option<string>))
    requires left.Some? ==> |left.value| < bound
    decreases bound, 0
  {
    match left
    case None => (f, None)
    case Some(s) => ReadFields(f, s)
  }

  /** One word extracted into an empty string; a failed stream yields nothing more. */
  function ReadHash(s: Option<string>): (string, Option<string>) {
    match s
    case None => ("", None)
    case Some(t) =>
      match ReadWord(t)
      case None => ("", None)
      case Some((h, rest)) => (h, Some(rest))
  }

  function ReadHashes(s: Option<string>, n: nat): (hs: seq<string>)
    ensures |hs| == n
    decreases n
  {
    if n == 0 then [] else [ReadHash(s).0] + ReadHashes(ReadHash(s).1, n - 1)
  }

  /** What follows the first occurrence of a mark. */
  function Following(s: string, mark: string): (r: Option<string>)
    ensures r.Some? ==> |r.value| <= |s|
  {
    if mark <= s then Some(s[|mark|..]) else if s == "" then None else Following(s[1..], mark)
  }

  function Triples(ts: seq<string>): seq<Contact> {
    if |ts| < 3 then [] else [Contact(ts[0], ts[1], ts[2])] + Triples(ts[3..])
  }

  function ContactsIn(r: string): seq<Contact> {
    match Following(r, PEERS_MARK)
    case None => []
    case Some(block) => Triples(Tokens(block))
  }

  /** The most strings a vector can be asked to hold, at 32 bytes each. */
  const MAX_STRINGS := MAX_LL / 32

  /** Nothing when the reply is not a file, or claims a piece count no vector can have. */
  function Parse(r: string): Option<Plan> {
    if !("FILE " <= r) then None
    else
      var (f, left) := ReadFields(Fields(0, "", 0), r);
      if f.numPieces < 0 || f.numPieces > MAX_STRINGS then None
      else Some(Plan(f.size, f.fullhash, ReadHashes(left, f.numPieces), ContactsIn(r)))
  }

  /** A reply that is no file, or whose piece count is negative or beyond any vector, starts no download. */
  lemma NoPlanIff(r: string)
    ensures Parse(r) == None <==>
            |r| < 5 || r[..5] != "FILE " || !(0 <= ReadFields(Fields(0, "", 0), r).0.numPieces <= MAX_STRINGS)
  {
  }

  /** The first loop: fields by keyword, up to the piece hashes. */
  method ScanFields(r: string) returns (size: int, fullhash: string, numPieces: int, s: Option<string>)
    ensures (Fields(size, fullhash, numPieces), s) == ReadFields(Fields(0, "", 0), r)
  {
    s := Some(r);
    size, fullhash, numPieces := 0, "", 0;
    var atHashes := false;
    ghost var result := ReadFields(Fields(0, "", 0), r);
    while s.Some? && !atHashes
      invariant s.Some? && !atHashes ==> ReadFields(Fields(size, fullhash, numPieces), s.value) == result
      invariant s.None? || atHashes ==> (Fields(size, fullhash, numPieces), s) == result
      decreases !atHashes, if s.Some? then |s.value| + 1 else 0
    {
      var next := ReadWord(s.value);
      if next.None? {
        s := None;
      } else {
        var (word, rest) := next.value;
        if word == "SIZE" {
          var (v, left) := ReadNumber(size, rest);
          size, s := v, left;
        } else if word == "HASH" {
          var h := ReadWord(rest);
          if h.None? {
            s := None;
          } else {
            fullhash, s := h.value.0, Some(h.value.1);
          }
        } else if word == "PIECES" {
          var (v, left) := ReadNumber(numPieces, rest);
          numPieces, s := v, left;
        } else if word == "PIECE_HASHES" {
          atHashes, s := true, Some(rest);
        } else {
          s := Some(rest);
        }
      }
    }
  }

  /** The second loop: the hash vector, already as long as it will be. */
  method ScanHashes(start: Option<string>, numPieces: nat) returns (pieceHashes: seq<string>)
    ensures pieceHashes == ReadHashes(start, numPieces)
  {
    pieceHashes := [];
    var s := start;
    while |pieceHashes| < numPieces
      invariant |pieceHashes| <= numPieces
      invariant ReadHashes(start, numPieces) == pieceHashes + ReadHashes(s, numPieces - |pieceHashes|)
    {
      var (h, rest) := ReadHash(s);
      ghost var left := ReadHashes(rest, numPieces - |pieceHashes| - 1);
      assert pieceHashes + ([h] + left) == (pieceHashes + [h]) + left;
      pieceHashes, s := pieceHashes + [h], rest;
    }
    assert pieceHashes + [] == pieceHashes;
  }

  method ParseReply(r: string) returns (plan: Option<Plan>)
    ensures plan == Parse(r)
  {
    if !("FILE " <= r) {
      return None;
    }
    var size, fullhash, numPieces, s := ScanFields(r);
    if numPieces < 0 || numPieces > MAX_STRINGS {
      return None;
    }
    var pieceHashes := ScanHashes(s, numPieces);
    plan := Some(Plan(size, fullhash, pieceHashes, ContactsIn(r)));
  }

  // ---------- Reading back what was printed ----------

  predicate AtSpace(s: string) {
    s != "" && IsSpace(s[0])
  }

  lemma {:induction false} WordEndAt(w: string, rest: string)
    requires NoSpace(w) && AtSpace(rest)
    ensures WordEnd(w + rest) == |w|
  {
    if w == "" {
      assert w + rest == rest;
    } else {
      assert (w + rest)[1..] == w[1..] + rest;
      WordEndAt(w[1..], rest);
    }
  }

  lemma {:induction false} DigitEndAt(w: string, rest: string)
    requires Digits(w) && AtSpace(rest)
    ensures DigitEnd(w + rest) == |w|
  {
    if w == "" {
      assert w + rest == rest;
    } else {
      assert (w + rest)[1..] == w[1..] + rest;
      DigitEndAt(w[1..], rest);
    }
  }

  /** The fields still to be read, before the text that follows the line. */
  function Stream(ws: seq<string>, tail: string): (s: string)
    ensures AtSpace(tail) ==> AtSpace(s)
  {
    Trailing(ws) + tail
  }

  lemma StreamFront(w: string, more: seq<string>, tail: string)
    requires Word(w) && AtSpace(tail)
    ensures SkipSpace(Stream([w] + more, tail)) == w + Stream(more, tail)
  {
    var s, t := Stream([w] + more, tail), w + Stream(more, tail);
    assert ([w] + more)[1..] == more;
    assert s == " " + t;
    assert s[1..] == t && !IsSpace(t[0]);
    assert SkipSpace(s) == SkipSpace(t) == t;
  }

  lemma NextWord(w: string, more: seq<string>, tail: string)
    requires Word(w) && AtSpace(tail)
    ensures ReadWord(Stream([w] + more, tail)) == Some((w, Stream(more, tail)))
  {
    var t := w + Stream(more, tail);
    StreamFront(w, more, tail);
    WordEndAt(w, Stream(more, tail));
    assert t[..|w|] == w && t[|w|..] == Stream(more, tail);
  }

  lemma NextNumber(old_: int, n: nat, more: seq<string>, tail: string)
    requires n <= MAX_LL && AtSpace(tail)
    ensures ReadNumber(old_, Stream([Show(n)] + more, tail)) == (n, Some(Stream(more, tail)))
  {
    var t := Show(n) + Stream(more, tail);
    StreamFront(Show(n), more, tail);
    DigitEndAt(Show(n), Stream(more, tail));
    assert IsDigit(Show(n)[0]);
    assert t[..|Show(n)|] == Show(n) && t[|Show(n)|..] == Stream(more, tail);
  }

  /** Any number in range that a text spells, signed or not, is read up to where its digits end. */
  lemma AnyNumberRead(old_: int, sign: string, digits: string, rest: string, v: int)
    requires Numeral(sign + digits, v, sign, digits) && (rest == "" || !IsDigit(rest[0]))
    ensures MIN_LL <= v <= MAX_LL ==> ReadNumber(old_, sign + digits + rest) == (v, Some(rest))
    ensures v > MAX_LL ==> ReadNumber(old_, sign + digits + rest) == (MAX_LL, None)
    ensures v < MIN_LL ==> ReadNumber(old_, sign + digits + rest) == (MIN_LL, None)
  {
    var t, body := sign + digits + rest, digits + rest;
    assert IsDigit(digits[0]);
    assert if sign == "" then t == body else t[1..] == body;
    assert SkipSpace(t) == t;
    DigitsEnd(digits, rest);
    assert body[..|digits|] == digits && body[|digits|..] == rest;
  }

  lemma {:induction false} DigitsEnd(w: string, rest: string)
    requires Digits(w) && (rest == "" || !IsDigit(rest[0]))
    ensures DigitEnd(w + rest) == |w|
  {
    if w == "" {
      assert w + rest == rest;
    } else {
      assert (w + rest)[1..] == w[1..] + rest;
      DigitsEnd(w[1..], rest);
    }
  }

  /** At the end of the text the variable keeps what it held, and the stream fails. */
  lemma NoNumberAtEnd(old_: int, blanks: string)
    requires forall i :: 0 <= i < |blanks| ==> IsSpace(blanks[i])
    ensures ReadNumber(old_, blanks) == (old_, None) && ReadWord(blanks) == None
  {
    OnlySpace(blanks);
  }

  lemma {:induction false} OnlySpace(blanks: string)
    requires forall i :: 0 <= i < |blanks| ==> IsSpace(blanks[i])
    ensures SkipSpace(blanks) == ""
  {
    if blanks != "" {
      OnlySpace(blanks[1..]);
    }
  }

  /** A field that is no number leaves zero behind and ends the parse. */
  lemma NextNoNumber(old_: int, w: string, more: seq<string>, tail: string)
    requires Word(w) && AtSpace(tail) && 'A' <= w[0] <= 'Z'
    ensures ReadNumber(old_, Stream([w] + more, tail)) == (0, None)
  {
    StreamFront(w, more, tail);
  }

  predicate Keyword(w: string) {
    w == "SIZE" || w == "HASH" || w == "PIECES" || w == "PIECE_HASHES"
  }

  lemma FieldSkipped(f: Fields, w: string, more: seq<string>, tail: string)
    requires Word(w) && !Keyword(w) && AtSpace(tail)
    ensures ReadFields(f, Stream([w] + more, tail)) == ReadFields(f, Stream(more, tail))
  {
    NextWord(w, more, tail);
  }

  lemma NumberField(f: Fields, w: string, n: nat, more: seq<string>, tail: string)
    requires (w == "SIZE" || w == "PIECES") && n <= MAX_LL && AtSpace(tail)
    ensures ReadFields(f, Stream([w, Show(n)] + more, tail))
         == ReadFields(if w == "SIZE" then f.(size := n) else f.(numPieces := n), Stream(more, tail))
  {
    assert [w, Show(n)] + more == [w] + ([Show(n)] + more);
    NextWord(w, [Show(n)] + more, tail);
    NextNumber(if w == "SIZE" then f.size else f.numPieces, n, more, tail);
  }

  lemma HashField(f: Fields, h: string, more: seq<string>, tail: string)
    requires Word(h) && AtSpace(tail)
    ensures ReadFields(f, Stream(["HASH", h] + more, tail)) == ReadFields(f.(fullhash := h), Stream(more, tail))
  {
    assert ["HASH", h] + more == ["HASH"] + ([h] + more);
    NextWord("HASH", [h] + more, tail);
    NextWord(h, more, tail);
  }

  lemma HashesMark(f: Fields, hashes: seq<string>, tail: string)
    requires AtSpace(tail)
    ensures ReadFields(f, Stream(["PIECE_HASHES"] + hashes, tail)) == (f, Some(Stream(hashes, tail)))
  {
    NextWord("PIECE_HASHES", hashes, tail);
  }

  lemma {:induction false} HashesRead(hashes: seq<string>, tail: string)
    requires Words(hashes) && AtSpace(tail)
    ensures ReadHashes(Some(Stream(hashes, tail)), |hashes|) == hashes
  {
    if hashes != [] {
      assert hashes == [hashes[0]] + hashes[1..];
      NextWord(hashes[0], hashes[1..], tail);
      HashesRead(hashes[1..], tail);
    }
  }

  predicate Sendable(f: FileMeta) {
    && 0 <= f.size <= MAX_LL && f.numPieces == |f.pieceHashes| <= MAX_INT
    && Word(f.fullhash) && Words(f.pieceHashes)
  }

  lemma PiecesOnRead(d: Fields, f: FileMeta, tail: string)
    requires Sendable(f) && AtSpace(tail)
    ensures ReadFields(d, Stream(PiecesOn(f), tail))
         == (d.(numPieces := f.numPieces), Some(Stream(f.pieceHashes, tail)))
  {
    NumberField(d, "PIECES", f.numPieces, ["PIECE_HASHES"] + f.pieceHashes, tail);
    HashesMark(d.(numPieces := f.numPieces), f.pieceHashes, tail);
  }

  lemma HashOnRead(d: Fields, f: FileMeta, tail: string)
    requires Sendable(f) && AtSpace(tail)
    ensures ReadFields(d, Stream(HashOn(f), tail))
         == (Fields(d.size, f.fullhash, f.numPieces), Some(Stream(f.pieceHashes, tail)))
  {
    HashField(d, f.fullhash, PiecesOn(f), tail);
    PiecesOnRead(d.(fullhash := f.fullhash), f, tail);
  }

  lemma SizeOnRead(d: Fields, f: FileMeta, tail: string)
    requires Sendable(f) && AtSpace(tail)
    ensures ReadFields(d, Stream(SizeOn(f), tail))
         == (Fields(f.size, f.fullhash, f.numPieces), Some(Stream(f.pieceHashes, tail)))
  {
    NumberField(d, "SIZE", f.size, HashOn(f), tail);
    HashOnRead(d.(size := f.size), f, tail);
  }

  /** A file called SIZE or PIECES: its name makes the parser look for a number in the word SIZE. */
  lemma NumberNameRead(d: Fields, fname: string, f: FileMeta, tail: string)
    requires Sendable(f) && AtSpace(tail) && (fname == "SIZE" || fname == "PIECES")
    ensures ReadFields(d, Stream(Header(fname, f), tail))
         == (if fname == "SIZE" then d.(size := 0) else d.(numPieces := 0), None)
  {
    NextWord(fname, SizeOn(f), tail);
    assert SizeOn(f) == ["SIZE"] + ([Show(f.size)] + HashOn(f));
    NextNoNumber(if fname == "SIZE" then d.size else d.numPieces, "SIZE", [Show(f.size)] + HashOn(f), tail);
  }

  /** A file called HASH: the word SIZE is taken for its hash, and the size is skipped. */
  lemma HashNameRead(d: Fields, f: FileMeta, tail: string)
    requires Sendable(f) && AtSpace(tail)
    ensures ReadFields(d, Stream(Header("HASH", f), tail))
         == (Fields(d.size, f.fullhash, f.numPieces), Some(Stream(f.pieceHashes, tail)))
  {
    assert Header("HASH", f) == ["HASH", "SIZE"] + ([Show(f.size)] + HashOn(f));
    HashField(d, "SIZE", [Show(f.size)] + HashOn(f), tail);
    assert IsDigit(Show(f.size)[0]);
    FieldSkipped(d.(fullhash := "SIZE"), Show(f.size), HashOn(f), tail);
    HashOnRead(d.(fullhash := "SIZE"), f, tail);
  }

  function ReadAs(fname: string, f: FileMeta): (Fields, seq<string>) {
    if fname == "SIZE" || fname == "PIECES" || fname == "PIECE_HASHES" then (Fields(0, "", 0), [])
    else (Fields(if fname == "HASH" then 0 else f.size, f.fullhash, f.numPieces), f.pieceHashes)
  }

  lemma HeaderRead(fname: string, f: FileMeta, tail: string)
    requires Word(fname) && Sendable(f) && AtSpace(tail)
    ensures var (d, left) := ReadFields(Fields(0, "", 0), Stream(Header(fname, f), tail));
      (d, ReadHashes(left, if d.numPieces < 0 then 0 else d.numPieces)) == ReadAs(fname, f)
  {
    var d := Fields(0, "", 0);
    if fname == "SIZE" || fname == "PIECES" {
      NumberNameRead(d, fname, f, tail);
    } else if fname == "PIECE_HASHES" {
      HashesMark(d, SizeOn(f), tail);
    } else {
      HashesRead(f.pieceHashes, tail);
      if fname == "HASH" {
        HashNameRead(d, f, tail);
      } else {
        FieldSkipped(d, fname, SizeOn(f), tail);
        SizeOnRead(d, f, tail);
      }
    }
  }

  // ---------- The peer block ----------

  lemma {:induction false} AfterMark(line: string, mark: string, rest: string)
    requires OneLine(line) && mark != "" && mark[0] == '\n'
    ensures Following(line + mark + rest, mark) == Some(rest)
  {
    var s := line + mark + rest;
    if line == "" {
      assert s == mark + rest;
      assert s[..|mark|] == mark && s[|mark|..] == rest;
    } else {
      assert s[0] == line[0] != mark[0];
      assert s[1..] == line[1..] + mark + rest;
      AfterMark(line[1..], mark, rest);
    }
  }

  lemma {:induction false} TrailingOneLine(ws: seq<string>)
    requires Words(ws)
    ensures OneLine(Trailing(ws))
  {
    if ws != [] {
      TrailingOneLine(ws[1..]);
      assert forall i :: 0 <= i < |ws[0]| ==> ws[0][i] != '\n';
    }
  }

  lemma {:induction false} TriplesConcat(a: seq<string>, b: seq<string>, k: nat)
    requires |a| == 3 * k
    ensures Triples(a + b) == Triples(a) + Triples(b)
  {
    if k == 0 {
      assert a + b == b;
    } else {
      assert (a + b)[3..] == a[3..] + b;
      TriplesConcat(a[3..], b, k - 1);
    }
  }

  /** The connected seeders with their addresses, in the order printed. */
  function Contacts(peers: map<string, Peer>, order: seq<string>): seq<Contact> {
    if order == [] then []
    else
      var n := order[|order| - 1];
      Contacts(peers, order[..|order| - 1])
      + if n in peers && peers[n].connected then [Contact(n, peers[n].hostip, peers[n].hostport)] else []
  }

  /** Whoever is connected has an address; login supplies it and everything else clears it. */
  ghost predicate Addressed(peers: map<string, Peer>) {
    forall n :: n in peers && peers[n].connected ==> Word(peers[n].hostip) && Word(peers[n].hostport)
  }

  lemma LineTokens(peers: map<string, Peer>, n: string)
    requires Addressed(peers) && Word(n) && n in peers && peers[n].connected
    ensures Tokens(PeerLine(peers, n)) == [n, peers[n].hostip, peers[n].hostport]
  {
    var p := peers[n];
    var ts := [n, p.hostip, p.hostport];
    TokensOfSpaced(ts);
    assert ts[1..] == [p.hostip, p.hostport] && ts[1..][1..] == [p.hostport];
    assert Spaced(ts[1..]) == p.hostip + " " + p.hostport;
    assert PeerLine(peers, n) == Spaced(ts) + "\n";
    TokensConcat(Spaced(ts), "\n");
  }

  /** Text that reads as whole triples, and after which another line can follow. */
  predicate Reads(s: string, cs: seq<Contact>) {
    && |Tokens(s)| == 3 * |cs| && Triples(Tokens(s)) == cs
    && (s != "" ==> s[|s| - 1] == '\n')
  }

  lemma LineReads(peers: map<string, Peer>, n: string)
    requires Addressed(peers) && Word(n) && n in peers && peers[n].connected
    ensures Reads(PeerLine(peers, n), [Contact(n, peers[n].hostip, peers[n].hostport)])
  {
    LineTokens(peers, n);
    var ts := [n, peers[n].hostip, peers[n].hostport];
    assert ts[3..] == [];
    assert Triples(ts[3..]) == [];
  }

  lemma ReadsConcat(a: string, b: string, cs: seq<Contact>, ds: seq<Contact>)
    requires Reads(a, cs) && Reads(b, ds)
    ensures Reads(a + b, cs + ds)
  {
    TokensConcat(a, b);
    TriplesConcat(Tokens(a), Tokens(b), |cs|);
    assert b != "" ==> (a + b)[|a + b| - 1] == b[|b| - 1];
    assert b == "" ==> a + b == a;
  }

  lemma {:induction false} PeerLinesRead(peers: map<string, Peer>, order: seq<string>)
    requires Addressed(peers) && Words(order)
    ensures Reads(PeerLines(peers, order), Contacts(peers, order))
  {
    if order != [] {
      var front, n := order[..|order| - 1], order[|order| - 1];
      PeerLinesRead(peers, front);
      if n in peers && peers[n].connected {
        LineReads(peers, n);
        ReadsConcat(PeerLines(peers, front), PeerLine(peers, n), Contacts(peers, front),
                    [Contact(n, peers[n].hostip, peers[n].hostport)]);
      } else {
        assert PeerLines(peers, front) + "" == PeerLines(peers, front);
        assert Contacts(peers, front) + [] == Contacts(peers, front);
      }
    }
  }

  lemma BlockRead(peers: map<string, Peer>, order: seq<string>)
    requires Addressed(peers) && Words(order)
    ensures Triples(Tokens(PeerLines(peers, order) + "\n")) == Contacts(peers, order)
  {
    PeerLinesRead(peers, order);
    TokensConcat(PeerLines(peers, order), "\n");
    assert Tokens(PeerLines(peers, order)) + [] == Tokens(PeerLines(peers, order));
  }

  /** Exactly the connected seeders, each with the address of its login. */
  lemma {:induction false} ContactsExact(peers: map<string, Peer>, order: seq<string>, c: Contact)
    ensures c in Contacts(peers, order) <==>
            && c.name in order && c.name in peers && peers[c.name].connected
            && c.ip == peers[c.name].hostip && c.port == peers[c.name].hostport
  {
    if order != [] {
      var front, n := order[..|order| - 1], order[|order| - 1];
      assert order == front + [n];
      ContactsExact(peers, front, c);
    }
  }

  // ---------- The round trip ----------

  lemma PrintedContacts(fname: string, f: FileMeta, peers: map<string, Peer>, order: seq<string>)
    requires Word(fname) && Sendable(f) && Addressed(peers) && Words(order)
    ensures ContactsIn(ReplyText(fname, f, peers, order)) == Contacts(peers, order)
  {
    var line := "FILE" + Trailing(Header(fname, f));
    HeaderWords(fname, f);
    TrailingOneLine(Header(fname, f));
    AfterMark(line, PEERS_MARK, PeerLines(peers, order) + "\n");
    BlockRead(peers, order);
  }

  lemma PrintedFields(fname: string, f: FileMeta, peers: map<string, Peer>, order: seq<string>)
    requires Word(fname) && Sendable(f)
    ensures var r := ReplyText(fname, f, peers, order);
      var s := Stream(Header(fname, f), PEERS_MARK + (PeerLines(peers, order) + "\n"));
      "FILE " <= r && ReadFields(Fields(0, "", 0), r) == ReadFields(Fields(0, "", 0), s)
  {
    var tail := PEERS_MARK + (PeerLines(peers, order) + "\n");
    var h := Header(fname, f);
    assert ReplyText(fname, f, peers, order) == "FILE" + Stream(h, tail);
    assert Trailing(h)[0] == ' ';
    FirstWord(Stream(h, tail));
  }

  /** What any reply is read as, whatever the file is called. */
  lemma ParsePrinted(fname: string, f: FileMeta, peers: map<string, Peer>, order: seq<string>)
    requires Word(fname) && Sendable(f) && Addressed(peers) && Words(order)
    ensures var (d, hashes) := ReadAs(fname, f);
      Parse(ReplyText(fname, f, peers, order)) == Some(Plan(d.size, d.fullhash, hashes, Contacts(peers, order)))
  {
    PrintedContacts(fname, f, peers, order);
    PrintedFields(fname, f, peers, order);
    HeaderRead(fname, f, PEERS_MARK + (PeerLines(peers, order) + "\n"));
  }

  lemma HeaderWords(fname: string, f: FileMeta)
    requires Word(fname) && Sendable(f)
    ensures Words(Header(fname, f))
  {
  }

  lemma FirstWord(s: string)
    requires AtSpace(s)
    ensures ReadFields(Fields(0, "", 0), "FILE" + s) == ReadFields(Fields(0, "", 0), s)
  {
    var t := "FILE" + s;
    WordEndAt("FILE", s);
    assert SkipSpace(t) == t;
    assert t[..4] == "FILE" && t[4..] == s;
  }

  /**
   * The downloader reads back the size, the full hash, every piece hash in order and the contacts
   * exactly when the file is not named like one of the reply's own keywords; the name HASH does no
   * harm to an empty file, whose size is what the parser starts from.
   */
  lemma ReplyRoundTripIff(fname: string, f: FileMeta, peers: map<string, Peer>, order: seq<string>)
    requires Word(fname) && Sendable(f) && Addressed(peers) && Words(order)
    ensures Parse(ReplyText(fname, f, peers, order))
            == Some(Plan(f.size, f.fullhash, f.pieceHashes, Contacts(peers, order)))
            <==> !Keyword(fname) || (fname == "HASH" && f.size == 0)
  {
    ParsePrinted(fname, f, peers, order);
  }

  /** One case of it: of a file called SIZE nothing is read but the contacts. */
  lemma FileCalledSize(f: FileMeta, peers: map<string, Peer>, order: seq<string>)
    requires Sendable(f) && Addressed(peers) && Words(order)
    ensures Parse(ReplyText("SIZE", f, peers, order)) == Some(Plan(0, "", [], Contacts(peers, order)))
    ensures f.fullhash != ""
  {
    ParsePrinted("SIZE", f, peers, order);
  }
}
