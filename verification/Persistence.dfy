/** Building blocks of the printer and the record-by-record reader. */
module Persistence {
  import opened Text
  import opened States
  import opened Records
  import opened Commands

  // ---------- Folding records one after another ----------

  lemma {:induction false} SumSnoc(recs: seq<Record>, r: Record)
    ensures Sum(recs + [r]) == Join(Sum(recs), Single(r))
  {
    if recs == [] {
      assert recs + [r] == [r];
      assert [r][1..] == [];
      JoinUnit(Single(r));
    } else {
      assert (recs + [r])[1..] == recs[1..] + [r];
      SumSnoc(recs[1..], r);
      JoinAssociative(Single(recs[0]), Sum(recs[1..]), Single(r));
    }
  }

  lemma {:induction false} LastPeersSnoc(recs: seq<Record>, r: Record, m: map<string, Peer>)
    ensures LastPeers(recs + [r], m)
         == LastPeers([r], LastPeers(recs, m))
    decreases |recs|
  {
    if recs == [] {
      assert recs + [r] == [r];
    } else {
      assert (recs + [r])[1..] == recs[1..] + [r];
      var first := recs[0];
      LastPeersSnoc(recs[1..], r, if first.UserRec? then m[first.name := Offline(first.salt, first.hash)] else m);
    }
  }

  /** In a snapshot the last line for a name counts; in a merge an account that is there stays. */
  lemma LastLineWins(recs: seq<Record>, n: string, salt: string, hash: string)
    ensures n in Restored(recs + [UserRec(n, salt, hash)]).peers
    ensures Restored(recs + [UserRec(n, salt, hash)]).peers[n] == Offline(salt, hash)
    ensures n in Sum(recs).peers ==>
      n in Sum(recs + [UserRec(n, salt, hash)]).peers
      && Sum(recs + [UserRec(n, salt, hash)]).peers[n] == Sum(recs).peers[n]
  {
    var r := UserRec(n, salt, hash);
    LastPeersSnoc(recs, r, map[]);
    OneUserLine(r, LastPeers(recs, map[]));
    SumSnoc(recs, r);
  }

  lemma OneUserLine(r: Record, m: map<string, Peer>)
    requires r.UserRec?
    ensures LastPeers([r], m) == m[r.name := Offline(r.salt, r.hash)]
  {
    assert [r][1..] == [];
  }

  lemma CoversSnoc(s: State, a: State, b: State)
    ensures Covers(s, Join(a, b)) <==> Covers(s, a) && Covers(Join(s, a), b)
  {
    HasJoinAll(a, b);
    HasJoinAll(s, a);
    if Covers(s, Join(a, b)) {
      assert Covers(s, a);
      assert Covers(Join(s, a), b);
    }
    if Covers(s, a) && Covers(Join(s, a), b) {
      forall x | Has(Join(a, b), x) ensures Has(s, x) {
        assert Has(a, x) ==> Has(s, x);
        assert Has(b, x) ==> Has(Join(s, a), x);
      }
    }
  }

  /** What a list of records does, read in order, in either mode. */
  ghost function Applied(s: State, recs: seq<Record>, replace: bool): State {
    if replace then Restored(recs) else Join(s, Sum(recs))
  }

  ghost function ApplyOne(s: State, r: Record, replace: bool): State {
    if replace && r.UserRec? then s.(peers := s.peers[r.name := Offline(r.salt, r.hash)])
    else Join(s, Single(r))
  }

  lemma AppliedSnoc(s: State, recs: seq<Record>, r: Record, replace: bool)
    ensures Applied(s, recs + [r], replace) == ApplyOne(Applied(s, recs, replace), r, replace)
    ensures Covers(s, Sum(recs + [r])) <==> Covers(s, Sum(recs)) && Covers(Join(s, Sum(recs)), Single(r))
  {
    SumSnoc(recs, r);
    CoversSnoc(s, Sum(recs), Single(r));
    if replace {
      LastPeersSnoc(recs, r, map[]);
      RestoredStep(Sum(recs), LastPeers(recs, map[]), r);
    } else {
      JoinAssociative(s, Sum(recs), Single(r));
    }
  }

  lemma RestoredStep(s: State, m: map<string, Peer>, r: Record)
    ensures Join(s, Single(r)).(peers := LastPeers([r], m)) == ApplyOne(s.(peers := m), r, true)
  {
    var x := Single(r);
    if r.UserRec? {
      assert MapJoin(s.groups, x.groups, UniteGroups) == s.groups;
      assert MapJoin(s.files, x.files, UniteFiles) == s.files;
      assert MapJoin(s.index, x.index, Union) == s.index;
    } else {
      assert MapJoin(m, x.peers, KeepLeft) == m;
    }
  }

  lemma GrewIff(a: set<string>, b: set<string>)
    ensures |a + b| >= |a|
    ensures |a + b| == |a| <==> b <= a
  {
    assert |a + b| == |a| + |b - a| by {
      assert a + b == a + (b - a);
    }
    if b <= a {
      assert b - a == {};
    } else {
      var x :| x in b && x !in a;
      assert x in b - a;
    }
  }

  lemma CoversGroupRec(s: State, r: Record)
    requires r.GroupRec?
    ensures Covers(s, Single(r)) <==>
      && r.gid in s.groups
      && SetOf(r.parts) <= s.groups[r.gid].participants
      && SetOf(r.apps) <= s.groups[r.gid].applicants
      && (OwnerOf(r.owner) != "" ==> s.groups[r.gid].owner != "")
  {
    var x := Single(r);
    if Covers(s, x) {
      CoversGroup(s, x, r.gid);
      var g := UniteGroups(s.groups[r.gid], x.groups[r.gid]);
      assert SetOf(r.parts) <= g.participants && SetOf(r.apps) <= g.applicants;
    }
  }

  lemma CoversFileRec(s: State, r: Record)
    requires r.FileRec?
    ensures Covers(s, Single(r)) <==> r.key in s.files && SetOf(r.seeders) <= s.files[r.key].seeders
  {
    var x := Single(r);
    if Covers(s, x) {
      CoversFile(s, x, r.key);
      assert SetOf(r.seeders) <= UniteFiles(s.files[r.key], x.files[r.key]).seeders;
    }
  }

  lemma CoversIndexRec(s: State, r: Record)
    requires r.IndexRec?
    ensures Covers(s, Single(r)) <==> SetOf(r.fnames) <= (if r.gid in s.index then s.index[r.gid] else {})
  {
    var x := Single(r);
    if Covers(s, x) {
      forall f | f in SetOf(r.fnames) ensures r.gid in s.index && f in s.index[r.gid] {
        assert Has(x, IndexAtom(r.gid, f));
      }
    }
  }

  lemma CoversUserRec(s: State, r: Record)
    requires r.UserRec?
    ensures Covers(s, Single(r)) <==> r.name in s.peers
  {
    assert Has(Single(r), UserAtom(r.name));
  }

  // ---------- Printing in progress ----------

  /** `out` prints the records so far, which are one for each key in `done`. */
  ghost predicate PrintedSoFar(s: State, recs: seq<Record>, out: string, done: set<Key>) {
    && out == Render(recs)
    && Faithful(s, recs)
    && Distinct(recs)
    && KeysOf(recs) == done
  }

  lemma PrintOneMore(s: State, recs: seq<Record>, out: string, done: set<Key>, r: Record)
    requires PrintedSoFar(s, recs, out, done)
    requires RecordFor(s, r) && KeyOf(r) !in done
    ensures PrintedSoFar(s, recs + [r], out + Line(r) + "\n", done + {KeyOf(r)})
  {
    RenderSnoc(recs, r);
    KeysSnoc(recs, r);
    DistinctSnoc(recs, r);
  }

  lemma DistinctSnoc(recs: seq<Record>, r: Record)
    requires Distinct(recs) && KeyOf(r) !in KeysOf(recs)
    ensures Distinct(recs + [r])
  {
    KeysSnoc(recs, r);
  }

  lemma RenderSnoc(recs: seq<Record>, r: Record)
    ensures Render(recs + [r]) == Render(recs) + Line(r) + "\n"
  {
    LinesSnoc(recs, r);
    UnlinesAppend(LinesOf(recs), Line(r));
  }

  lemma KeysSnoc(recs: seq<Record>, r: Record)
    requires KeyOf(r) !in KeysOf(recs)
    ensures KeysOf(recs + [r]) == KeysOf(recs) + {KeyOf(r)}
    ensures forall i :: 0 <= i < |recs| ==> KeyOf((recs + [r])[i]) != KeyOf(r)
  {
    assert forall x :: x in recs + [r] <==> x in recs || x == r;
    forall i | 0 <= i < |recs| ensures KeyOf((recs + [r])[i]) != KeyOf(r) {
      assert recs[i] in recs;
    }
  }

  lemma {:induction false} LinesSnoc(recs: seq<Record>, r: Record)
    ensures LinesOf(recs + [r]) == LinesOf(recs) + [Line(r)]
  {
  }

  /** Reads a count and that many tokens; false when the count is bad or the line too short. */
  method TakeListAt(t: seq<string>, i: nat) returns (ok: bool, j: nat, out: seq<string>)
    requires i <= |t|
    ensures ok <==> TakeList(t[i..]).Some?
    ensures ok ==> i < j <= |t| && TakeList(t[i..]) == Some((out, t[j..]))
  {
    out := [];
    j := i;
    if i >= |t| {
      return false, j, out;
    }
    var count := ParseLL(t[i]);
    if count.None? || count.value < 0 {
      return false, j, out;
    }
    j := i + 1;
    if count.value > |t| - j {
      return false, j, out;
    }
    var k := 0;
    while k < count.value
      invariant 0 <= k <= count.value
      invariant j == i + 1 + k
      invariant out == t[i + 1..j]
    {
      out := out + [t[j]];
      j := j + 1;
      k := k + 1;
    }
    ok := true;
    assert t[i..][1..1 + count.value] == t[i + 1..j] && t[i..][1 + count.value..] == t[j..];
  }

  /** The next line at `pos`, and the position after its newline. */
  method GetLine(data: string, pos: nat) returns (line: string, next: nat)
    requires pos < |data|
    ensures pos < next <= |data|
    ensures Lines(data[pos..]) == [line] + Lines(data[next..])
  {
    var e := pos;
    while e < |data| && data[e] != '\n'
      invariant pos <= e <= |data|
      invariant forall i :: pos <= i < e ==> data[i] != '\n'
    {
      e := e + 1;
    }
    line := data[pos..e];
    next := if e < |data| then e + 1 else e;
    FirstLineAt(data, pos, e);
  }

  lemma FirstLineAt(data: string, pos: nat, e: nat)
    requires pos <= e <= |data| && pos < |data|
    requires forall i :: pos <= i < e ==> data[i] != '\n'
    requires e < |data| ==> data[e] == '\n'
    ensures var next := if e < |data| then e + 1 else e;
      Lines(data[pos..]) == [data[pos..e]] + Lines(data[next..])
  {
    var s, n := data[pos..], e - pos;
    assert s[..n] == data[pos..e];
    LineEndAt(s, n);
    if e < |data| {
      assert s[n + 1..] == data[e + 1..];
    } else {
      assert s == data[pos..e] && data[e..] == "";
      assert Lines("") == [];
    }
  }

  lemma EnumerateOneMore(xs: seq<string>, s: set<string>, x: string)
    requires Enumerates(xs, s) && x !in s
    ensures Enumerates(xs + [x], s + {x})
  {
    var ys := xs + [x];
    forall i, j | 0 <= i < j < |ys| ensures ys[i] != ys[j] {
      assert ys[i] in SetOf(xs);
    }
    assert forall y :: y in ys <==> y in xs || y == x;
  }

  /** Appends every element of a hash set to a line, in whatever order the set lists them. */
  method AppendAll(start: string, s: set<string>) returns (out: string, ghost xs: seq<string>)
    ensures Enumerates(xs, s)
    ensures out == start + Trailing(xs)
  {
    out, xs := start, [];
    var rest := s;
    while rest != {}
      invariant rest <= s
      invariant Enumerates(xs, s - rest)
      invariant out == start + Trailing(xs)
      decreases rest
    {
      var x :| x in rest;
      out := out + " " + x;
      TrailingAppend(xs, x);
      EnumerateOneMore(xs, s - rest, x);
      xs := xs + [x];
      assert s - rest + {x} == s - (rest - {x});
      rest := rest - {x};
    }
    assert s - rest == s;
  }

  method AppendList(start: string, xs: seq<string>) returns (out: string)
    ensures out == start + Trailing(xs)
  {
    out := start;
    for i := 0 to |xs|
      invariant out == start + Trailing(xs[..i])
    {
      out := out + " " + xs[i];
      TrailingAppend(xs[..i], xs[i]);
      assert xs[..i + 1] == xs[..i] + [xs[i]];
    }
    assert xs[..|xs|] == xs;
  }

  /** Appending more words to a tagged line. */
  lemma ContinueLine(tag: string, ts: seq<string>, us: seq<string>)
    ensures tag + Trailing(ts) + Trailing(us) == tag + Trailing(ts + us)
  {
    TrailingConcat(ts, us);
    assert tag + Trailing(ts) + Trailing(us) == tag + (Trailing(ts) + Trailing(us));
  }

  lemma TagFirst(tag: string, ts: seq<string>)
    ensures Spaced([tag] + ts) == tag + Trailing(ts)
  {
    SpacedTrailing([tag], ts);
  }

  method PrintUser(n: string, p: Peer) returns (line: string)
    ensures line == Line(UserRec(n, p.salt, p.hash))
  {
    line := AppendList("USER", [n, p.salt, p.hash]);
    TagFirst("USER", [n, p.salt, p.hash]);
  }

  method PrintGroup(s: State, gid: string) returns (line: string, ghost r: Record)
    requires gid in s.groups
    ensures r.GroupRec? && r.gid == gid && RecordFor(s, r) && line == Line(r)
  {
    var g := s.groups[gid];
    var owner := if g.owner == "" then "-" else g.owner;
    ghost var parts, apps;
    line := AppendList("GROUP", [gid, owner, Show(|g.participants|)]);
    line, parts := AppendAll(line, g.participants);
    line := AppendList(line, [Show(|g.applicants|)]);
    line, apps := AppendAll(line, g.applicants);
    EnumerationSize(parts, g.participants);
    EnumerationSize(apps, g.applicants);
    r := GroupRec(gid, owner, parts, apps);
    GroupText(gid, owner, parts, apps);
  }

  lemma GroupText(gid: string, owner: string, parts: seq<string>, apps: seq<string>)
    ensures "GROUP" + Trailing([gid, owner, Show(|parts|)]) + Trailing(parts) + Trailing([Show(|apps|)])
            + Trailing(apps)
         == Line(GroupRec(gid, owner, parts, apps))
  {
    var n, m := Show(|parts|), Show(|apps|);
    FourParts("GROUP", [gid, owner, n], parts, [m], apps);
    FourFirst("GROUP", gid, owner, n, parts, [m], apps);
  }

  lemma FourFirst(a: string, b: string, c: string, d: string, xs: seq<string>, ys: seq<string>, zs: seq<string>)
    ensures [a] + ([b, c, d] + xs + ys + zs) == [a, b, c, d] + xs + ys + zs
  {
  }

  lemma FiveFirst(a: string, b: string, c: string, d: string, e: string, xs: seq<string>, ys: seq<string>,
                  zs: seq<string>)
    ensures [a] + ([b, c, d, e] + xs + ys + zs) == [a, b, c, d, e] + xs + ys + zs
  {
  }

  lemma TwoParts(tag: string, a: seq<string>, b: seq<string>)
    ensures tag + Trailing(a) + Trailing(b) == Spaced([tag] + (a + b))
  {
    ContinueLine(tag, a, b);
    TagFirst(tag, a + b);
  }

  /** A line written part by part is the tag and all the words, separated by blanks. */
  lemma FourParts(tag: string, a: seq<string>, b: seq<string>, c: seq<string>, d: seq<string>)
    ensures tag + Trailing(a) + Trailing(b) + Trailing(c) + Trailing(d) == Spaced([tag] + (a + b + c + d))
  {
    ContinueLine(tag, a, b);
    ContinueLine(tag, a + b, c);
    ContinueLine(tag, a + b + c, d);
    TagFirst(tag, a + b + c + d);
  }

  method PrintFile(s: State, key: string) returns (line: string, ghost r: Record)
    requires key in s.files
    ensures r.FileRec? && r.key == key && RecordFor(s, r) && line == Line(r)
  {
    var f := s.files[key];
    ghost var seeders;
    line := AppendList("FILE", [key, Show(f.size), f.fullhash, Show(|f.pieceHashes|)]);
    line := AppendList(line, f.pieceHashes);
    line := AppendList(line, [Show(|f.seeders|)]);
    line, seeders := AppendAll(line, f.seeders);
    EnumerationSize(seeders, f.seeders);
    r := FileRec(key, f.size, f.fullhash, f.pieceHashes, seeders);
    FileText(key, f.size, f.fullhash, f.pieceHashes, seeders);
  }

  lemma FileText(key: string, size: int, full: string, hashes: seq<string>, seeders: seq<string>)
    ensures "FILE" + Trailing([key, Show(size), full, Show(|hashes|)]) + Trailing(hashes) + Trailing([Show(|seeders|)])
            + Trailing(seeders)
         == Line(FileRec(key, size, full, hashes, seeders))
  {
    var s, n, m := Show(size), Show(|hashes|), Show(|seeders|);
    FourParts("FILE", [key, s, full, n], hashes, [m], seeders);
    FiveFirst("FILE", key, s, full, n, hashes, [m], seeders);
  }

  method PrintIndex(s: State, gid: string) returns (line: string, ghost r: Record)
    requires gid in s.index
    ensures r.IndexRec? && r.gid == gid && RecordFor(s, r) && line == Line(r)
  {
    ghost var fnames;
    line := AppendList("GFILE", [gid, Show(|s.index[gid]|)]);
    line, fnames := AppendAll(line, s.index[gid]);
    EnumerationSize(fnames, s.index[gid]);
    r := IndexRec(gid, fnames);
    IndexText(gid, fnames);
  }

  lemma IndexText(gid: string, fnames: seq<string>)
    ensures "GFILE" + Trailing([gid, Show(|fnames|)]) + Trailing(fnames) == Line(IndexRec(gid, fnames))
  {
    var n := Show(|fnames|);
    TwoParts("GFILE", [gid, n], fnames);
    FirstThree("GFILE", gid, n, fnames);
  }

  lemma FirstThree(a: string, b: string, c: string, rest: seq<string>)
    ensures [a] + ([b, c] + rest) == [a, b, c] + rest
  {
  }

  lemma EnumerationSize(xs: seq<string>, s: set<string>)
    requires Enumerates(xs, s)
    ensures |xs| == |s|
    decreases xs
  {
    if xs == [] {
      assert s == {};
    } else {
      var n := |xs| - 1;
      var xs', s' := xs[..n], s - {xs[n]};
      assert xs == xs' + [xs[n]];
      assert SetOf(xs') == s' by {
        forall x | x in xs' ensures x in s' {
          var i :| 0 <= i < n && xs'[i] == x;
          assert x in SetOf(xs);
        }
        forall x | x in s' ensures x in xs' {
          assert x in SetOf(xs);
        }
      }
      EnumerationSize(xs', s');
      assert xs[n] in SetOf(xs);
    }
  }

  // ---------- Keys of each kind ----------

  ghost function UserKeys(s: State): set<Key> {
    set n | n in s.peers && Visible(s.peers[n]) :: UserKey(n)
  }

  ghost function GroupKeys(s: State): set<Key> {
    set g | g in s.groups :: GroupKey(g)
  }

  ghost function FileKeys(s: State): set<Key> {
    set k | k in s.files :: FileKey(k)
  }

  ghost function IndexKeys(s: State): set<Key> {
    set g | g in s.index :: IndexKey(g)
  }

  lemma AllPrinted(s: State, recs: seq<Record>, out: string)
    requires PrintedSoFar(s, recs, out, UserKeys(s) + GroupKeys(s) + FileKeys(s) + IndexKeys(s))
    ensures PrintedAs(s, out)
  {
    assert Printout(s, recs);
  }

  // ---------- Reading in progress ----------

  /** Up to `pos` the text held the records `applied`, all of which are in `now`. */
  ghost predicate ReadSoFar(data: string, pos: nat, applied: seq<Record>, s0: State, now: State, replace: bool,
                            changed: bool)
  {
    && pos <= |data|
    && ParseText(data) == Prefixed(applied, ParseLines(Lines(data[pos..])))
    && now == Applied(s0, applied, replace)
    && (!replace ==> changed == !Covers(s0, Sum(applied)))
  }

  function Prefixed(applied: seq<Record>, rest: Parsed): Parsed {
    Parsed(applied + rest.recs, rest.ok)
  }

  lemma ReadStart(data: string, s0: State, replace: bool)
    ensures ReadSoFar(data, 0, [], s0, if replace then EMPTY else s0, replace, false)
  {
    assert data[0..] == data;
    var all := ParseText(data);
    assert [] + all.recs == all.recs;
    NothingApplied(s0, replace);
  }

  lemma NothingApplied(s0: State, replace: bool)
    ensures Applied(s0, [], replace) == if replace then EMPTY else s0
    ensures Covers(s0, Sum([]))
  {
    JoinUnit(s0);
  }

  lemma ReadSkip(data: string, pos: nat, line: string, next: nat, applied: seq<Record>, s0: State, now: State,
                 replace: bool, changed: bool)
    requires ReadSoFar(data, pos, applied, s0, now, replace, changed)
    requires next <= |data| && Lines(data[pos..]) == [line] + Lines(data[next..])
    requires ParseLine(Tokens(line)).Skip?
    ensures ReadSoFar(data, next, applied, s0, now, replace, changed)
  {
    assert Lines(data[pos..])[1..] == Lines(data[next..]);
  }

  lemma ReadBad(data: string, pos: nat, line: string, next: nat, applied: seq<Record>, s0: State, now: State,
                replace: bool, changed: bool)
    requires ReadSoFar(data, pos, applied, s0, now, replace, changed)
    requires next <= |data| && Lines(data[pos..]) == [line] + Lines(data[next..])
    requires ParseLine(Tokens(line)).Bad?
    ensures ParseText(data) == Parsed(applied, false)
  {
    assert applied + [] == applied;
  }

  lemma ReadRecord(data: string, pos: nat, line: string, next: nat, applied: seq<Record>, s0: State, now: State,
                   replace: bool, changed: bool, r: Record)
    requires ReadSoFar(data, pos, applied, s0, now, replace, changed)
    requires next <= |data| && Lines(data[pos..]) == [line] + Lines(data[next..])
    requires ParseLine(Tokens(line)) == Rec(r)
    ensures ReadSoFar(data, next, applied + [r], s0, ApplyOne(now, r, replace), replace,
                      changed || (!replace && !Covers(now, Single(r))))
  {
    OneMoreParsed(line, Lines(data[pos..]), Lines(data[next..]), applied, r);
    AppliedSnoc(s0, applied, r, replace);
  }

  lemma OneMoreParsed(line: string, ls: seq<string>, rest: seq<string>, applied: seq<Record>, r: Record)
    requires ls == [line] + rest && ParseLine(Tokens(line)) == Rec(r)
    ensures Prefixed(applied, ParseLines(ls)) == Prefixed(applied + [r], ParseLines(rest))
  {
    assert ls[1..] == rest;
    var later := ParseLines(rest).recs;
    assert ParseLines(ls).recs == [r] + later;
    RegroupRecords(applied, r, later);
  }

  lemma RegroupRecords(a: seq<Record>, r: Record, b: seq<Record>)
    ensures a + ([r] + b) == (a + [r]) + b
  {
  }

  lemma ReadEnd(data: string, applied: seq<Record>, s0: State, now: State, replace: bool, changed: bool)
    requires ReadSoFar(data, |data|, applied, s0, now, replace, changed)
    ensures ParseText(data) == Parsed(applied, true)
  {
    assert applied + [] == applied;
  }
}
