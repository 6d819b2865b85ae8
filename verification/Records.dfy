/** The line format shared by the snapshot file and tracker-to-tracker replication. */
module Records {
  import opened Text
  import opened States

  /** One line, as the words it carries; `owner` is the printed token, "-" for nobody. */
  datatype Record =
    | UserRec(name: string, salt: string, hash: string)
    | GroupRec(gid: string, owner: string, parts: seq<string>, apps: seq<string>)
    | FileRec(key: string, size: int, fullhash: string, hashes: seq<string>, seeders: seq<string>)
    | IndexRec(gid: string, fnames: seq<string>)

  function OwnerToken(owner: string): string {
    if owner == "" then "-" else owner
  }

  function OwnerOf(token: string): string {
    if token == "-" then "" else token
  }

  /** The cast of a container size to a 32-bit `int`. */
  function ToInt32(n: int): int {
    (n + 0x8000_0000) % 0x1_0000_0000 - 0x8000_0000
  }

  /** The cast keeps the number modulo 2^32, and is the number itself where it fits. */
  lemma CastTo32(n: int)
    ensures -0x8000_0000 <= ToInt32(n) < 0x8000_0000 && (ToInt32(n) - n) % 0x1_0000_0000 == 0
    ensures MIN_INT <= n <= MAX_INT ==> ToInt32(n) == n
  {
    var m := n + 0x8000_0000;
    assert m == m / 0x1_0000_0000 * 0x1_0000_0000 + m % 0x1_0000_0000;
    assert ToInt32(n) - n == -(m / 0x1_0000_0000) * 0x1_0000_0000;
  }

  function SetOf(ts: seq<string>): set<string> {
    set t | t in ts
  }

  /** The state that holds just what one record says. */
  function Single(r: Record): State {
    match r
    case UserRec(n, salt, hash) => EMPTY.(peers := map[n := Offline(salt, hash)])
    case GroupRec(g, owner, parts, apps) =>
      EMPTY.(groups := map[g := Group(OwnerOf(owner), SetOf(parts), SetOf(apps))])
    case FileRec(k, size, full, hashes, seeders) =>
      EMPTY.(files := map[k := FileMeta(size, full, ToInt32(|hashes|), hashes, SetOf(seeders))])
    case IndexRec(g, fnames) => EMPTY.(index := map[g := SetOf(fnames)])
  }

  /** Everything a list of records says; an earlier record wins over a later one. */
  ghost function Sum(recs: seq<Record>): State {
    if recs == [] then EMPTY else Join(Single(recs[0]), Sum(recs[1..]))
  }

  /** Accounts as a snapshot load reads them: a later line for a name replaces an earlier one. */
  function LastPeers(recs: seq<Record>, m: map<string, Peer>): map<string, Peer>
    decreases |recs|
  {
    if recs == [] then m
    else
      LastPeers(recs[1..], if recs[0].UserRec? then m[recs[0].name := Offline(recs[0].salt, recs[0].hash)] else m)
  }

  ghost function Restored(recs: seq<Record>): State {
    Sum(recs).(peers := LastPeers(recs, map[]))
  }

  // ---------- Parsing ----------

  /** A count and that many tokens, with what follows them. */
  function TakeList(ts: seq<string>): (r: Option<(seq<string>, seq<string>)>)
    ensures r.Some? ==> |r.value.0| + |r.value.1| < |ts|
  {
    if ts == [] then None
    else
      match ParseLL(ts[0])
      case None => None
      case Some(n) => if n < 0 || n > |ts| - 1 then None else Some((ts[1..1 + n], ts[1 + n..]))
  }

  /** A list is read exactly when a number stands first and at least that many tokens follow it. */
  lemma TakeListIff(ts: seq<string>, xs: seq<string>, rest: seq<string>)
    ensures TakeList(ts) == Some((xs, rest)) <==>
            ts != [] && ts[1..] == xs + rest && Spells(ts[0], |xs|) && |xs| <= MAX_LL
  {
    if ts != [] {
      ParseLLIff(ts[0], |xs|);
      if ts[1..] == xs + rest {
        assert ts[1..1 + |xs|] == xs && ts[1 + |xs|..] == rest;
      }
    }
  }

  datatype LineResult = Skip | Bad | Rec(rec: Record)

  function ParseUser(t: seq<string>): LineResult {
    if |t| != 4 then Bad else Rec(UserRec(t[1], t[2], t[3]))
  }

  function ParseGroup(t: seq<string>): LineResult {
    if |t| < 4 then Bad
    else
      match TakeList(t[3..])
      case None => Bad
      case Some((parts, rest)) =>
        match TakeList(rest)
        case None => Bad
        case Some((apps, _)) => Rec(GroupRec(t[1], t[2], parts, apps))
  }

  function ParseFile(t: seq<string>): LineResult {
    if |t| < 5 then Bad
    else
      match ParseLL(t[2])
      case None => Bad
      case Some(size) =>
        if size < 0 then Bad
        else
          match TakeList(t[4..])
          case None => Bad
          case Some((hashes, rest)) =>
            match TakeList(rest)
            case None => Bad
            case Some((seeders, _)) => Rec(FileRec(t[1], size, t[3], hashes, seeders))
  }

  function ParseIndex(t: seq<string>): LineResult {
    if |t| < 3 then Bad
    else
      match TakeList(t[2..])
      case None => Bad
      case Some((fnames, _)) => Rec(IndexRec(t[1], fnames))
  }

  /** One line, already split into words. */
  function ParseLine(t: seq<string>): LineResult {
    if t == [] || t[0] == "V" then Skip
    else if t[0] == "USER" then ParseUser(t)
    else if t[0] == "GROUP" then ParseGroup(t)
    else if t[0] == "FILE" then ParseFile(t)
    else if t[0] == "GFILE" then ParseIndex(t)
    else Bad
  }

  /** The words that make a user line. */
  lemma UserLineIff(t: seq<string>, n: string, salt: string, hash: string)
    ensures ParseLine(t) == Rec(UserRec(n, salt, hash)) <==> t == ["USER", n, salt, hash]
  {
  }

  /** A count and its words, and whatever may follow at the end of a line. */
  predicate Counted(ts: seq<string>, count: string, xs: seq<string>, rest: seq<string>) {
    ts == [count] + xs + rest
  }

  lemma CountedIff(ts: seq<string>, xs: seq<string>, rest: seq<string>)
    ensures TakeList(ts) == Some((xs, rest)) <==>
            ts != [] && Counted(ts, ts[0], xs, rest) && Spells(ts[0], |xs|) && |xs| <= MAX_LL
  {
    TakeListIff(ts, xs, rest);
    if ts != [] {
      assert ts == [ts[0]] + ts[1..];
      if ts[1..] == xs + rest {
        assert [ts[0]] + (xs + rest) == [ts[0]] + xs + rest;
      }
      if Counted(ts, ts[0], xs, rest) {
        assert ts[1..] == xs + rest;
      }
    }
  }

  /** An index line: the tag, the group, a number, that many names, and nothing else that is looked at. */
  ghost predicate IndexWords(t: seq<string>, g: string, fnames: seq<string>) {
    exists n: string, more: seq<string> ::
      Spells(n, |fnames|) && |fnames| <= MAX_LL && t == ["GFILE", g] + ([n] + fnames + more)
  }

  lemma IndexLineIff(t: seq<string>, g: string, fnames: seq<string>)
    ensures ParseLine(t) == Rec(IndexRec(g, fnames)) <==> IndexWords(t, g, fnames)
  {
    if ParseLine(t) == Rec(IndexRec(g, fnames)) {
      var more := TakeList(t[2..]).value.1;
      CountedIff(t[2..], fnames, more);
      assert t == ["GFILE", g] + t[2..];
    }
    if IndexWords(t, g, fnames) {
      var n, more :| Spells(n, |fnames|) && |fnames| <= MAX_LL && t == ["GFILE", g] + ([n] + fnames + more);
      assert t[2..] == [n] + fnames + more;
      CountedIff(t[2..], fnames, more);
    }
  }

  /** Two counted lists, one after the other. */
  ghost predicate TwoLists(ts: seq<string>, xs: seq<string>, ys: seq<string>) {
    exists n: string, m: string, more: seq<string> :: TwoListsBy(ts, xs, ys, n, m, more)
  }

  ghost predicate TwoListsBy(ts: seq<string>, xs: seq<string>, ys: seq<string>, n: string, m: string,
                             more: seq<string>)
  {
    && Spells(n, |xs|) && |xs| <= MAX_LL && Spells(m, |ys|) && |ys| <= MAX_LL
    && ts == [n] + xs + ([m] + ys + more)
  }

  function TakeTwo(ts: seq<string>): Option<(seq<string>, seq<string>)> {
    match TakeList(ts)
    case None => None
    case Some((xs, rest)) =>
      match TakeList(rest)
      case None => None
      case Some((ys, _)) => Some((xs, ys))
  }

  lemma TakeTwoIff(ts: seq<string>, xs: seq<string>, ys: seq<string>)
    ensures TakeTwo(ts) == Some((xs, ys)) <==> TwoLists(ts, xs, ys)
  {
    if TakeTwo(ts) == Some((xs, ys)) {
      var rest := TakeList(ts).value.1;
      var more := TakeList(rest).value.1;
      CountedIff(ts, xs, rest);
      CountedIff(rest, ys, more);
      assert TwoListsBy(ts, xs, ys, ts[0], rest[0], more);
    }
    if TwoLists(ts, xs, ys) {
      var n, m, more :| TwoListsBy(ts, xs, ys, n, m, more);
      var rest := [m] + ys + more;
      CountedIff(ts, xs, rest);
      CountedIff(rest, ys, more);
    }
  }

  /** A group line: the tag, the group, its owner or "-", and its members and applicants. */
  lemma GroupLineIff(t: seq<string>, g: string, owner: string, parts: seq<string>, apps: seq<string>)
    ensures ParseLine(t) == Rec(GroupRec(g, owner, parts, apps)) <==>
            |t| > 3 && t[..3] == ["GROUP", g, owner] && TwoLists(t[3..], parts, apps)
  {
    if |t| > 3 {
      TakeTwoIff(t[3..], parts, apps);
      ByTag(t);
      GroupParsed(t, parts, apps);
    }
  }

  lemma GroupParsed(t: seq<string>, parts: seq<string>, apps: seq<string>)
    requires |t| > 3
    ensures ParseGroup(t) == Rec(GroupRec(t[1], t[2], parts, apps)) <==> TakeTwo(t[3..]) == Some((parts, apps))
  {
  }

  /** A file line: the tag, the key, a size, the hash, and the piece hashes and seeders. */
  lemma FileLineIff(t: seq<string>, k: string, size: int, full: string, hashes: seq<string>, seeders: seq<string>)
    ensures ParseLine(t) == Rec(FileRec(k, size, full, hashes, seeders)) <==>
            && |t| > 4 && t[0] == "FILE" && t[1] == k && t[3] == full
            && Spells(t[2], size) && 0 <= size <= MAX_LL && TwoLists(t[4..], hashes, seeders)
  {
    if |t| > 4 {
      TakeTwoIff(t[4..], hashes, seeders);
      ParseLLIff(t[2], size);
    }
  }

  /** A line cut short of its count is refused. */
  lemma ShortListRefused(g: string, n: string, count: nat, fnames: seq<string>)
    requires Spells(n, count) && |fnames| < count <= MAX_LL
    ensures ParseLine(["GFILE", g, n] + fnames) == Bad
  {
    var t := ["GFILE", g, n] + fnames;
    ParseLLIff(n, count);
    assert t[2..] == [n] + fnames;
    ByTag(t);
    TooShort(n, count, fnames);
  }

  lemma TooShort(n: string, count: nat, xs: seq<string>)
    requires ParseLL(n) == Some(count) && |xs| < count
    ensures TakeList([n] + xs) == None
  {
  }

  /** The records applied, and whether the text was accepted: reading stops at the first bad line. */
  datatype Parsed = Parsed(recs: seq<Record>, ok: bool)

  function ParseLines(ls: seq<string>): Parsed {
    if ls == [] then Parsed([], true)
    else
      match ParseLine(Tokens(ls[0]))
      case Skip => ParseLines(ls[1..])
      case Bad => Parsed([], false)
      case Rec(r) =>
        var rest := ParseLines(ls[1..]);
        Parsed([r] + rest.recs, rest.ok)
  }

  function ParseText(text: string): Parsed {
    ParseLines(Lines(text))
  }

  // ---------- Printing ----------

  function TokensOf(r: Record): seq<string> {
    match r
    case UserRec(n, salt, hash) => ["USER", n, salt, hash]
    case GroupRec(g, owner, parts, apps) =>
      ["GROUP", g, owner, Show(|parts|)] + parts + [Show(|apps|)] + apps
    case FileRec(k, size, full, hashes, seeders) =>
      ["FILE", k, Show(size), full, Show(|hashes|)] + hashes + [Show(|seeders|)] + seeders
    case IndexRec(g, fnames) => ["GFILE", g, Show(|fnames|)] + fnames
  }

  function Line(r: Record): string {
    Spaced(TokensOf(r))
  }

  function LinesOf(recs: seq<Record>): (ls: seq<string>)
    ensures |ls| == |recs|
    ensures forall i :: 0 <= i < |recs| ==> ls[i] == Line(recs[i])
  {
    if recs == [] then [] else [Line(recs[0])] + LinesOf(recs[1..])
  }

  function Render(recs: seq<Record>): string {
    "V 1\n" + Unlines(LinesOf(recs))
  }

  /** A record whose fields the line format can carry. */
  predicate Clean(r: Record) {
    && Words(TokensOf(r))
    && (r.FileRec? ==> 0 <= r.size <= MAX_LL)
  }

  lemma TakeListOwn(xs: seq<string>, rest: seq<string>)
    requires |xs| <= MAX_LL
    ensures TakeList([Show(|xs|)] + xs + rest) == Some((xs, rest))
  {
    ParseShow(|xs|);
    var ts := [Show(|xs|)] + xs + rest;
    assert ts[1..1 + |xs|] == xs && ts[1 + |xs|..] == rest;
  }

  lemma ParseOwnGroup(g: string, owner: string, parts: seq<string>, apps: seq<string>)
    requires |parts| <= MAX_LL && |apps| <= MAX_LL
    ensures ParseGroup(TokensOf(GroupRec(g, owner, parts, apps))) == Rec(GroupRec(g, owner, parts, apps))
  {
    var t := TokensOf(GroupRec(g, owner, parts, apps));
    var rest := [Show(|apps|)] + apps + [];
    assert t[3..] == [Show(|parts|)] + parts + rest;
    TakeListOwn(parts, rest);
    TakeListOwn(apps, []);
  }

  lemma ParseOwnFile(k: string, size: int, full: string, hashes: seq<string>, seeders: seq<string>)
    requires |hashes| <= MAX_LL && |seeders| <= MAX_LL && 0 <= size <= MAX_LL
    ensures ParseFile(TokensOf(FileRec(k, size, full, hashes, seeders)))
         == Rec(FileRec(k, size, full, hashes, seeders))
  {
    var t := TokensOf(FileRec(k, size, full, hashes, seeders));
    var rest := [Show(|seeders|)] + seeders + [];
    ParseShow(size);
    FileFields("FILE", k, Show(size), full, Show(|hashes|), hashes, Show(|seeders|), seeders);
    TakeListOwn(hashes, rest);
    TakeListOwn(seeders, []);
    FileParsed(t, size, hashes, rest, seeders);
  }

  lemma FileFields(tag: string, k: string, size: string, full: string, n: string, hashes: seq<string>, m: string,
                   seeders: seq<string>)
    ensures var t := [tag, k, size, full, n] + hashes + [m] + seeders;
      |t| >= 5 && t[1] == k && t[2] == size && t[3] == full && t[4..] == [n] + hashes + ([m] + seeders + [])
  {
  }

  lemma FileParsed(t: seq<string>, size: int, hashes: seq<string>, rest: seq<string>, seeders: seq<string>)
    requires |t| >= 5 && ParseLL(t[2]) == Some(size) && size >= 0
    requires TakeList(t[4..]) == Some((hashes, rest)) && TakeList(rest) == Some((seeders, []))
    ensures ParseFile(t) == Rec(FileRec(t[1], size, t[3], hashes, seeders))
  {
  }

  lemma ParseOwnIndex(g: string, fnames: seq<string>)
    requires |fnames| <= MAX_LL
    ensures ParseIndex(TokensOf(IndexRec(g, fnames))) == Rec(IndexRec(g, fnames))
  {
    assert TokensOf(IndexRec(g, fnames))[2..] == [Show(|fnames|)] + fnames + [];
    TakeListOwn(fnames, []);
  }

  lemma ParseOwnTokens(r: Record)
    requires Clean(r) && |TokensOf(r)| <= MAX_LL
    ensures ParseLine(TokensOf(r)) == Rec(r)
  {
    TagOf(r);
    ByTag(TokensOf(r));
    match r
    case UserRec(_, _, _) =>
    case GroupRec(g, owner, parts, apps) => ParseOwnGroup(g, owner, parts, apps);
    case FileRec(k, size, full, hashes, seeders) => ParseOwnFile(k, size, full, hashes, seeders);
    case IndexRec(g, fnames) => ParseOwnIndex(g, fnames);
  }

  lemma ByTag(t: seq<string>)
    requires t != []
    ensures t[0] == "USER" ==> ParseLine(t) == ParseUser(t)
    ensures t[0] == "GROUP" ==> ParseLine(t) == ParseGroup(t)
    ensures t[0] == "FILE" ==> ParseLine(t) == ParseFile(t)
    ensures t[0] == "GFILE" ==> ParseLine(t) == ParseIndex(t)
  {
  }

  lemma TagOf(r: Record)
    ensures TokensOf(r) != []
    ensures TokensOf(r)[0] ==
      match r case UserRec(_, _, _) => "USER" case GroupRec(_, _, _, _) => "GROUP" case FileRec(_, _, _, _, _) => "FILE"
              case IndexRec(_, _) => "GFILE"
    ensures r.GroupRec? ==> |r.parts| + |r.apps| <= |TokensOf(r)|
    ensures r.FileRec? ==> |r.hashes| + |r.seeders| <= |TokensOf(r)|
    ensures r.IndexRec? ==> |r.fnames| <= |TokensOf(r)|
  {
  }

  /** A printed line parses back to the record it was printed from. */
  lemma ParseOwnLine(r: Record)
    requires Clean(r) && |Line(r)| <= MAX_LL
    ensures ParseLine(Tokens(Line(r))) == Rec(r) && OneLine(Line(r))
  {
    TokensOfSpaced(TokensOf(r));
    SpacedBounds(TokensOf(r));
    ParseOwnTokens(r);
  }

  lemma {:induction false} ParseOwnLines(recs: seq<Record>)
    requires forall i :: 0 <= i < |recs| ==> Clean(recs[i]) && |Line(recs[i])| <= MAX_LL
    ensures ParseLines(LinesOf(recs)) == Parsed(recs, true)
  {
    if recs != [] {
      ParseOwnLine(recs[0]);
      ParseOwnLines(recs[1..]);
      FirstLine(Line(recs[0]), LinesOf(recs[1..]), recs[0], recs[1..]);
      assert LinesOf(recs) == [Line(recs[0])] + LinesOf(recs[1..]);
      assert recs == [recs[0]] + recs[1..];
    }
  }

  lemma FirstLine(l: string, ls: seq<string>, r: Record, recs: seq<Record>)
    requires ParseLine(Tokens(l)) == Rec(r) && ParseLines(ls) == Parsed(recs, true)
    ensures ParseLines([l] + ls) == Parsed([r] + recs, true)
  {
    assert ([l] + ls)[1..] == ls;
  }

  /** A printed text parses back to exactly the records it was printed from. */
  lemma ParseOwnText(recs: seq<Record>)
    requires forall i :: 0 <= i < |recs| ==> Clean(recs[i])
    requires |Render(recs)| <= MAX_LL
    ensures ParseText(Render(recs)) == Parsed(recs, true)
  {
    var ls := LinesOf(recs);
    RenderLines(recs);
    forall i | 0 <= i < |recs| ensures |Line(recs[i])| <= MAX_LL && OneLine(ls[i]) {
      UnlinesLength(ls, i);
      ParseOwnLine(recs[i]);
    }
    HeaderSkipped(ls);
    ParseOwnLines(recs);
  }

  lemma RenderLines(recs: seq<Record>)
    ensures Render(recs) == Unlines(["V 1"] + LinesOf(recs))
    ensures |Unlines(LinesOf(recs))| <= |Render(recs)|
  {
    assert (["V 1"] + LinesOf(recs))[1..] == LinesOf(recs);
  }

  lemma HeaderSkipped(ls: seq<string>)
    requires forall i :: 0 <= i < |ls| ==> OneLine(ls[i])
    ensures ParseText(Unlines(["V 1"] + ls)) == ParseLines(ls)
  {
    var all := ["V 1"] + ls;
    HeadedOneLine(ls);
    LinesOfUnlines(all);
    HeaderTokens();
    HeaderLine(ls, all);
  }

  lemma HeadedOneLine(ls: seq<string>)
    requires forall i :: 0 <= i < |ls| ==> OneLine(ls[i])
    ensures forall i :: 0 <= i < |["V 1"] + ls| ==> OneLine((["V 1"] + ls)[i])
    ensures (["V 1"] + ls)[0] == "V 1" && (["V 1"] + ls)[1..] == ls
  {
  }

  lemma HeaderLine(ls: seq<string>, all: seq<string>)
    requires all != [] && all[1..] == ls && Tokens(all[0]) == ["V", "1"]
    ensures ParseLines(all) == ParseLines(ls)
  {
  }

  lemma HeaderTokens()
    ensures Tokens("V 1") == ["V", "1"]
  {
    TokensOfSpaced(["V", "1"]);
    assert "V" + " " + "1" == "V 1";
    assert ["V", "1"][1..] == ["1"];
  }

  // ---------- Every way of printing a state ----------

  /** `xs` lists the elements of `s`, each once, in some order. */
  predicate Enumerates(xs: seq<string>, s: set<string>) {
    && (forall i, j :: 0 <= i < j < |xs| ==> xs[i] != xs[j])
    && SetOf(xs) == s
  }

  /** Accounts without credentials are not printed. */
  predicate Visible(p: Peer) {
    p.salt != "" && p.hash != ""
  }

  /** The record says what the state holds for its key. */
  predicate RecordFor(s: State, r: Record) {
    match r
    case UserRec(n, salt, hash) =>
      n in s.peers && Visible(s.peers[n]) && salt == s.peers[n].salt && hash == s.peers[n].hash
    case GroupRec(g, owner, parts, apps) =>
      && g in s.groups
      && owner == OwnerToken(s.groups[g].owner)
      && Enumerates(parts, s.groups[g].participants)
      && Enumerates(apps, s.groups[g].applicants)
    case FileRec(k, size, full, hashes, seeders) =>
      && k in s.files
      && size == s.files[k].size && full == s.files[k].fullhash && hashes == s.files[k].pieceHashes
      && Enumerates(seeders, s.files[k].seeders)
    case IndexRec(g, fnames) => g in s.index && Enumerates(fnames, s.index[g])
  }

  datatype Key = UserKey(name: string) | GroupKey(gid: string) | FileKey(key: string) | IndexKey(gid: string)

  function KeyOf(r: Record): Key {
    match r
    case UserRec(n, _, _) => UserKey(n)
    case GroupRec(g, _, _, _) => GroupKey(g)
    case FileRec(k, _, _, _, _) => FileKey(k)
    case IndexRec(g, _) => IndexKey(g)
  }

  predicate Printed(s: State, k: Key) {
    match k
    case UserKey(n) => n in s.peers && Visible(s.peers[n])
    case GroupKey(g) => g in s.groups
    case FileKey(k) => k in s.files
    case IndexKey(g) => g in s.index
  }

  function KeysOf(recs: seq<Record>): set<Key> {
    set r | r in recs :: KeyOf(r)
  }

  predicate Distinct(recs: seq<Record>) {
    forall i, j :: 0 <= i < j < |recs| ==> KeyOf(recs[i]) != KeyOf(recs[j])
  }

  /** One faithful record for every entry, in any order, with any order inside each record. */
  ghost predicate Printout(s: State, recs: seq<Record>) {
    && Faithful(s, recs)
    && Distinct(recs)
    && (forall k :: Printed(s, k) ==> k in KeysOf(recs))
  }

  ghost predicate PrintedAs(s: State, text: string) {
    exists recs :: Printout(s, recs) && text == Render(recs)
  }

  /** Every field is a word, and the numbers are ones the printed form and its reader can hold. */
  predicate Printable(s: State) {
    && (forall n :: n in s.peers ==>
          Word(n) && (Visible(s.peers[n]) ==> Word(s.peers[n].salt) && Word(s.peers[n].hash)))
    && (forall g :: g in s.groups ==> Word(g) && PrintableGroup(s.groups[g]))
    && (forall k :: k in s.files ==> Word(k) && PrintableFile(s.files[k]))
    && (forall g :: g in s.index ==> Word(g) && AllWords(s.index[g]))
  }

  predicate AllWords(ws: set<string>) {
    forall w :: w in ws ==> Word(w)
  }

  predicate PrintableGroup(g: Group) {
    (g.owner == "" || Word(g.owner)) && AllWords(g.participants) && AllWords(g.applicants)
  }

  predicate PrintableFile(f: FileMeta) {
    && 0 <= f.size <= MAX_LL && Word(f.fullhash) && Words(f.pieceHashes) && AllWords(f.seeders)
    && f.numPieces == |f.pieceHashes| <= MAX_INT
  }

  lemma EnumerationWords(xs: seq<string>, s: set<string>)
    requires Enumerates(xs, s) && AllWords(s)
    ensures Words(xs)
  {
    forall i | 0 <= i < |xs| ensures Word(xs[i]) {
      assert xs[i] in SetOf(xs);
    }
  }

  lemma RecordClean(s: State, r: Record)
    requires Printable(s) && RecordFor(s, r)
    ensures Clean(r)
  {
    match r
    case UserRec(n, _, _) =>
    case GroupRec(g, _, parts, apps) =>
      assert PrintableGroup(s.groups[g]);
      EnumerationWords(parts, s.groups[g].participants);
      EnumerationWords(apps, s.groups[g].applicants);
      GroupWords(r);
    case FileRec(k, _, _, _, seeders) =>
      assert PrintableFile(s.files[k]);
      EnumerationWords(seeders, s.files[k].seeders);
      FileWords(r);
    case IndexRec(g, fnames) =>
      EnumerationWords(fnames, s.index[g]);
  }

  lemma GroupWords(r: Record)
    requires r.GroupRec? && Word(r.gid) && Word(r.owner) && Words(r.parts) && Words(r.apps)
    ensures Words(TokensOf(r))
  {
  }

  lemma FileWords(r: Record)
    requires r.FileRec? && Word(r.key) && Word(r.fullhash) && Words(r.hashes) && Words(r.seeders)
    ensures Words(TokensOf(r))
  {
  }

  /** What survives printing: no addresses, no credential-less accounts, no owner spelled "-". */
  function Wire(s: State): State {
    State(map n | n in s.peers && Visible(s.peers[n]) :: Offline(s.peers[n].salt, s.peers[n].hash),
          map g | g in s.groups :: s.groups[g].(owner := OwnerOf(OwnerToken(s.groups[g].owner))),
          map k | k in s.files :: s.files[k].(numPieces := ToInt32(|s.files[k].pieceHashes|)),
          s.index)
  }

  function AsUser(n: string): Key { UserKey(n) }

  function AsGroup(g: string): Key { GroupKey(g) }

  function AsFile(k: string): Key { FileKey(k) }

  function AsIndex(g: string): Key { IndexKey(g) }

  ghost function Only<V>(m: map<string, V>, key: string -> Key, ks: set<Key>): map<string, V> {
    map n | n in m && key(n) in ks :: m[n]
  }

  lemma OnlyJoin<V(!new)>(m: map<string, V>, key: string -> Key, a: set<Key>, b: set<Key>, f: (V, V) -> V)
    requires Absorbs(f)
    ensures MapJoin(Only(m, key, a), Only(m, key, b), f) == Only(m, key, a + b)
  {
    var x, y := MapJoin(Only(m, key, a), Only(m, key, b), f), Only(m, key, a + b);
    assert x.Keys == y.Keys;
    forall n | n in x.Keys ensures x[n] == y[n] {}
  }

  lemma OnlyAll<V>(m: map<string, V>, key: string -> Key, ks: set<Key>)
    requires forall n :: n in m ==> key(n) in ks
    ensures Only(m, key, ks) == m
  {
  }

  /** The part of a state under a set of keys. */
  ghost function Restrict(w: State, ks: set<Key>): State {
    State(Only(w.peers, AsUser, ks), Only(w.groups, AsGroup, ks),
          Only(w.files, AsFile, ks), Only(w.index, AsIndex, ks))
  }

  lemma RestrictJoin(w: State, a: set<Key>, b: set<Key>)
    ensures Join(Restrict(w, a), Restrict(w, b)) == Restrict(w, a + b)
  {
    EntriesAbsorb();
    OnlyJoin(w.peers, AsUser, a, b, KeepLeft);
    OnlyJoin(w.groups, AsGroup, a, b, UniteGroups);
    OnlyJoin(w.files, AsFile, a, b, UniteFiles);
    OnlyJoin(w.index, AsIndex, a, b, Union);
  }

  lemma RestrictNone(w: State)
    ensures Restrict(w, {}) == EMPTY
  {
  }

  lemma SingleIsRestrict(s: State, r: Record)
    requires RecordFor(s, r)
    ensures Single(r) == Restrict(Wire(s), {KeyOf(r)})
  {
    var x, y := Single(r), Restrict(Wire(s), {KeyOf(r)});
    assert x.peers == y.peers;
    assert x.groups == y.groups;
    assert x.files == y.files;
    assert x.index == y.index;
  }

  lemma KeysOfCons(recs: seq<Record>)
    requires recs != []
    ensures KeysOf(recs) == {KeyOf(recs[0])} + KeysOf(recs[1..])
  {
    assert forall r :: r in recs <==> r == recs[0] || r in recs[1..];
  }

  ghost predicate Faithful(s: State, recs: seq<Record>) {
    forall i :: 0 <= i < |recs| ==> RecordFor(s, recs[i])
  }

  lemma {:induction false} SumOfFaithful(s: State, recs: seq<Record>)
    requires Faithful(s, recs)
    ensures Sum(recs) == Restrict(Wire(s), KeysOf(recs))
  {
    if recs == [] {
      RestrictNone(Wire(s));
    } else {
      assert RecordFor(s, recs[0]) && Faithful(s, recs[1..]);
      SumOfFaithful(s, recs[1..]);
      SingleIsRestrict(s, recs[0]);
      RestrictJoin(Wire(s), {KeyOf(recs[0])}, KeysOf(recs[1..]));
      KeysOfCons(recs);
    }
  }

  /** Whatever the iteration orders, a printout adds up to the same state. */
  lemma SumOfPrintout(s: State, recs: seq<Record>)
    requires Printout(s, recs)
    ensures Sum(recs) == Wire(s)
  {
    SumOfFaithful(s, recs);
    var w, ks := Wire(s), KeysOf(recs);
    forall n | n in w.peers ensures AsUser(n) in ks {
      assert Printed(s, UserKey(n));
    }
    forall g | g in w.groups ensures AsGroup(g) in ks {
      assert Printed(s, GroupKey(g));
    }
    forall k | k in w.files ensures AsFile(k) in ks {
      assert Printed(s, FileKey(k));
    }
    forall g | g in w.index ensures AsIndex(g) in ks {
      assert Printed(s, IndexKey(g));
    }
    OnlyAll(w.peers, AsUser, ks);
    OnlyAll(w.groups, AsGroup, ks);
    OnlyAll(w.files, AsFile, ks);
    OnlyAll(w.index, AsIndex, ks);
  }

  lemma {:induction false} LastPeersOfFaithful(s: State, recs: seq<Record>, m: map<string, Peer>)
    requires Faithful(s, recs)
    requires forall n :: n in m ==> n in Wire(s).peers && m[n] == Wire(s).peers[n]
    ensures LastPeers(recs, m) == MapJoin(m, Sum(recs).peers, KeepLeft)
    decreases |recs|
  {
    if recs != [] {
      var one := Single(recs[0]).peers;
      var m' := MapJoin(one, m, KeepLeft);
      assert RecordFor(s, recs[0]) && Faithful(s, recs[1..]);
      OneMorePeer(s, recs[0], m);
      assert LastPeers(recs, m) == LastPeers(recs[1..], m');
      LastPeersOfFaithful(s, recs[1..], m');
      KeepLeftStep(m, one, Sum(recs[1..]).peers, Wire(s).peers);
    }
  }

  lemma OneMorePeer(s: State, r: Record, m: map<string, Peer>)
    requires RecordFor(s, r)
    requires forall n :: n in m ==> n in Wire(s).peers && m[n] == Wire(s).peers[n]
    ensures MapJoin(Single(r).peers, m, KeepLeft)
         == if r.UserRec? then m[r.name := Offline(r.salt, r.hash)] else m
    ensures forall n :: n in Single(r).peers ==> n in Wire(s).peers && Single(r).peers[n] == Wire(s).peers[n]
  {
  }

  lemma KeepLeftStep(m: map<string, Peer>, one: map<string, Peer>, rest: map<string, Peer>, w: map<string, Peer>)
    requires forall n :: n in m ==> n in w && m[n] == w[n]
    requires forall n :: n in one ==> n in w && one[n] == w[n]
    ensures MapJoin(MapJoin(one, m, KeepLeft), rest, KeepLeft) == MapJoin(m, MapJoin(one, rest, KeepLeft), KeepLeft)
  {
  }

  /** Parsing a printout into any state is the join with what the wire carries. */
  lemma MergeOfPrintout(l: State, r: State, text: string)
    requires Printable(r) && PrintedAs(r, text) && |text| <= MAX_LL
    ensures ParseText(text).ok
    ensures Sum(ParseText(text).recs) == Wire(r)
    ensures Join(l, Sum(ParseText(text).recs)) == Join(l, Wire(r))
  {
    var recs :| Printout(r, recs) && text == Render(recs);
    forall i | 0 <= i < |recs| ensures Clean(recs[i]) {
      RecordClean(r, recs[i]);
    }
    ParseOwnText(recs);
    SumOfPrintout(r, recs);
  }

  /** Loading a printout over anything gives what the wire carries. */
  lemma LoadOfPrintout(s: State, text: string)
    requires Printable(s) && PrintedAs(s, text) && |text| <= MAX_LL
    ensures ParseText(text).ok && Restored(ParseText(text).recs) == Wire(s)
  {
    var recs :| Printout(s, recs) && text == Render(recs);
    forall i | 0 <= i < |recs| ensures Clean(recs[i]) {
      RecordClean(s, recs[i]);
    }
    ParseOwnText(recs);
    SumOfPrintout(s, recs);
    LastPeersOfFaithful(s, recs, map[]);
    JoinUnit(Wire(s));
  }

  /** An account without a salt or a digest leaves no line, in whatever order a state is printed. */
  lemma NoLineForBroken(s: State, recs: seq<Record>, n: string)
    requires Printout(s, recs) && n in s.peers && (s.peers[n].salt == "" || s.peers[n].hash == "")
    ensures forall i :: 0 <= i < |recs| && recs[i].UserRec? ==> recs[i].name != n
    ensures n !in Wire(s).peers
  {
    forall i | 0 <= i < |recs| && recs[i].UserRec? ensures recs[i].name != n {
      assert RecordFor(s, recs[i]);
    }
  }

  /** The same state with every account offline and without an address. */
  function Disconnected(s: State): State {
    s.(peers := map n | n in s.peers :: Offline(s.peers[n].salt, s.peers[n].hash))
  }

  /** Both sides know the same credentials, owners and file metadata wherever both know the entry. */
  ghost predicate AgreeOffline(l: State, r: State) {
    && (forall n :: n in l.peers && n in r.peers ==>
          l.peers[n].salt == r.peers[n].salt && l.peers[n].hash == r.peers[n].hash)
    && Agree(l.(peers := map[]), r)
  }

  /** Addresses and connections aside, a merge commutes exactly when credentials and the rest agree. */
  lemma OfflineCommutesIff(l: State, r: State)
    ensures Join(Disconnected(l), Disconnected(r)) == Join(Disconnected(r), Disconnected(l)) <==> AgreeOffline(l, r)
  {
    JoinCommutesIff(Disconnected(l), Disconnected(r));
    OfflineAgreement(l, r);
  }

  lemma OfflineAgreement(l: State, r: State)
    ensures Agree(Disconnected(l), Disconnected(r)) <==> AgreeOffline(l, r)
  {
    var a, b := Disconnected(l), Disconnected(r);
    if Agree(a, b) {
      forall n | n in l.peers && n in r.peers
        ensures l.peers[n].salt == r.peers[n].salt && l.peers[n].hash == r.peers[n].hash
      {
        assert n in a.peers && n in b.peers;
      }
    }
  }

  /** The round trip is exact if and only if every account has credentials and nobody owns as "-". */
  lemma WireExactIff(s: State)
    requires Printable(s)
    ensures Wire(s) == Disconnected(s) <==>
            && (forall n :: n in s.peers ==> Visible(s.peers[n]))
            && (forall g :: g in s.groups ==> s.groups[g].owner != "-")
  {
    var w, d := Wire(s), Disconnected(s);
    if w == d {
      forall n | n in s.peers ensures Visible(s.peers[n]) {
        assert n in d.peers;
        assert n in w.peers;
      }
      forall g | g in s.groups ensures s.groups[g].owner != "-" {
        assert w.groups[g] == d.groups[g];
      }
    }
    if (forall n :: n in s.peers ==> Visible(s.peers[n])) &&
       (forall g :: g in s.groups ==> s.groups[g].owner != "-")
    {
      assert w.peers == d.peers;
      assert w.groups == d.groups;
      assert w.files == d.files;
    }
  }
}
