/** The four cross-referencing maps of a tracker as one value, and the union merge on it. */
module States {

  /** An account. The empty address means "not connected anywhere". */
  datatype Peer = Peer(hostip: string, hostport: string, salt: string, hash: string, connected: bool)

  /** A group; the empty owner means nobody owns it. */
  datatype Group = Group(owner: string, participants: set<string>, applicants: set<string>)

  datatype FileMeta = FileMeta(size: int, fullhash: string, numPieces: int, pieceHashes: seq<string>,
                               seeders: set<string>)

  datatype State = State(peers: map<string, Peer>, groups: map<string, Group>,
                         files: map<string, FileMeta>, index: map<string, set<string>>)

  const EMPTY := State(map[], map[], map[], map[])

  function Offline(salt: string, hash: string): Peer {
    Peer("", "", salt, hash, false)
  }

  // ---------- Union of two maps, entry by entry ----------

  ghost function MapJoin<V>(l: map<string, V>, r: map<string, V>, f: (V, V) -> V): map<string, V> {
    map k | k in l.Keys + r.Keys ::
      if k !in r then l[k] else if k !in l then r[k] else f(l[k], r[k])
  }

  lemma MapJoinAssociative<V(!new)>(l: map<string, V>, m: map<string, V>, r: map<string, V>, f: (V, V) -> V)
    requires forall a, b, c :: f(f(a, b), c) == f(a, f(b, c))
    ensures MapJoin(MapJoin(l, m, f), r, f) == MapJoin(l, MapJoin(m, r, f), f)
  {
    var x, y := MapJoin(MapJoin(l, m, f), r, f), MapJoin(l, MapJoin(m, r, f), f);
    assert x.Keys == y.Keys;
    forall k | k in x.Keys ensures x[k] == y[k] {}
  }

  lemma MapJoinAbsorbs<V(!new)>(l: map<string, V>, r: map<string, V>, f: (V, V) -> V)
    requires Absorbs(f)
    ensures MapJoin(l, l, f) == l
    ensures MapJoin(MapJoin(l, r, f), r, f) == MapJoin(l, r, f)
    ensures MapJoin(MapJoin(l, r, f), MapJoin(r, l, f), f) == MapJoin(l, r, f)
  {
    var x := MapJoin(l, r, f);
    var y, z := MapJoin(x, r, f), MapJoin(x, MapJoin(r, l, f), f);
    assert x.Keys == y.Keys == z.Keys;
    forall k | k in x.Keys ensures x[k] == y[k] == z[k] {}
  }

  lemma MapJoinOne<V>(l: map<string, V>, k: string, v: V, f: (V, V) -> V)
    ensures MapJoin(l, map[k := v], f) == l[k := if k in l then f(l[k], v) else v]
  {
  }

  // ---------- Merging single entries: what is here wins, sets are united ----------

  function KeepLeft<V>(a: V, b: V): V {
    a
  }

  function UniteGroups(a: Group, b: Group): Group {
    Group(if a.owner == "" then b.owner else a.owner,
          a.participants + b.participants, a.applicants + b.applicants)
  }

  function UniteFiles(a: FileMeta, b: FileMeta): FileMeta {
    a.(seeders := a.seeders + b.seeders)
  }

  function Union(a: set<string>, b: set<string>): set<string> {
    a + b
  }

  ghost function Join(l: State, r: State): State {
    State(MapJoin(l.peers, r.peers, KeepLeft), MapJoin(l.groups, r.groups, UniteGroups),
          MapJoin(l.files, r.files, UniteFiles), MapJoin(l.index, r.index, Union))
  }

  lemma EntriesAssociate()
    ensures forall a, b, c :: UniteGroups(UniteGroups(a, b), c) == UniteGroups(a, UniteGroups(b, c))
    ensures forall a, b, c :: UniteFiles(UniteFiles(a, b), c) == UniteFiles(a, UniteFiles(b, c))
    ensures forall a, b, c :: Union(Union(a, b), c) == Union(a, Union(b, c))
  {
    forall a, b, c ensures Union(Union(a, b), c) == Union(a, Union(b, c)) {
      assert (a + b) + c == a + (b + c);
    }
    forall a, b, c ensures UniteGroups(UniteGroups(a, b), c) == UniteGroups(a, UniteGroups(b, c)) {
      assert Union(Union(a.participants, b.participants), c.participants)
          == Union(a.participants, Union(b.participants, c.participants));
      assert Union(Union(a.applicants, b.applicants), c.applicants)
          == Union(a.applicants, Union(b.applicants, c.applicants));
    }
    forall a, b, c ensures UniteFiles(UniteFiles(a, b), c) == UniteFiles(a, UniteFiles(b, c)) {
      assert Union(Union(a.seeders, b.seeders), c.seeders) == Union(a.seeders, Union(b.seeders, c.seeders));
    }
  }

  lemma SetsAbsorb(a: set<string>, b: set<string>)
    ensures a + a == a && (a + b) + b == a + b && (a + b) + (b + a) == a + b
  {
  }

  lemma GroupsAbsorb(a: Group, b: Group)
    ensures UniteGroups(a, a) == a && UniteGroups(UniteGroups(a, b), b) == UniteGroups(a, b)
    ensures UniteGroups(UniteGroups(a, b), UniteGroups(b, a)) == UniteGroups(a, b)
  {
    SetsAbsorb(a.participants, b.participants);
    SetsAbsorb(a.applicants, b.applicants);
  }

  lemma FilesAbsorb(a: FileMeta, b: FileMeta)
    ensures UniteFiles(a, a) == a && UniteFiles(UniteFiles(a, b), b) == UniteFiles(a, b)
    ensures UniteFiles(UniteFiles(a, b), UniteFiles(b, a)) == UniteFiles(a, b)
  {
    SetsAbsorb(a.seeders, b.seeders);
  }

  ghost predicate Absorbs<V(!new)>(f: (V, V) -> V) {
    && (forall a :: f(a, a) == a)
    && (forall a, b :: f(f(a, b), b) == f(a, b) && f(f(a, b), f(b, a)) == f(a, b))
  }

  lemma EntriesAbsorb()
    ensures Absorbs<Peer>(KeepLeft) && Absorbs(UniteGroups) && Absorbs(UniteFiles) && Absorbs(Union)
  {
    assert Absorbs(UniteGroups) by {
      forall a: Group ensures UniteGroups(a, a) == a {
        GroupsAbsorb(a, a);
      }
      forall a: Group, b: Group
        ensures UniteGroups(UniteGroups(a, b), b) == UniteGroups(a, b)
        ensures UniteGroups(UniteGroups(a, b), UniteGroups(b, a)) == UniteGroups(a, b)
      {
        GroupsAbsorb(a, b);
      }
    }
    assert Absorbs(UniteFiles) by {
      forall a: FileMeta ensures UniteFiles(a, a) == a {
        FilesAbsorb(a, a);
      }
      forall a: FileMeta, b: FileMeta
        ensures UniteFiles(UniteFiles(a, b), b) == UniteFiles(a, b)
        ensures UniteFiles(UniteFiles(a, b), UniteFiles(b, a)) == UniteFiles(a, b)
      {
        FilesAbsorb(a, b);
      }
    }
    assert Absorbs(Union) by {
      forall a: set<string> ensures Union(a, a) == a {
        SetsAbsorb(a, a);
      }
      forall a: set<string>, b: set<string>
        ensures Union(Union(a, b), b) == Union(a, b) && Union(Union(a, b), Union(b, a)) == Union(a, b)
      {
        SetsAbsorb(a, b);
      }
    }
  }

  lemma JoinAssociative(l: State, m: State, r: State)
    ensures Join(Join(l, m), r) == Join(l, Join(m, r))
  {
    EntriesAssociate();
    MapJoinAssociative(l.peers, m.peers, r.peers, KeepLeft);
    MapJoinAssociative(l.groups, m.groups, r.groups, UniteGroups);
    MapJoinAssociative(l.files, m.files, r.files, UniteFiles);
    MapJoinAssociative(l.index, m.index, r.index, Union);
  }

  lemma JoinUnit(s: State)
    ensures Join(s, EMPTY) == s && Join(EMPTY, s) == s
  {
    MapUnit(s.peers, KeepLeft);
    MapUnit(s.groups, UniteGroups);
    MapUnit(s.files, UniteFiles);
    MapUnit(s.index, Union);
  }

  lemma MapUnit<V>(m: map<string, V>, f: (V, V) -> V)
    ensures MapJoin(m, map[], f) == m && MapJoin(map[], m, f) == m
  {
  }

  /** Merging the same state again changes nothing, and neither does an echo of what was sent. */
  lemma JoinAbsorbs(l: State, r: State)
    ensures Join(Join(l, r), r) == Join(l, r)
    ensures Join(Join(l, r), Join(r, l)) == Join(l, r)
    ensures Join(l, l) == l
  {
    EntriesAbsorb();
    MapJoinAbsorbs(l.peers, r.peers, KeepLeft);
    MapJoinAbsorbs(l.groups, r.groups, UniteGroups);
    MapJoinAbsorbs(l.files, r.files, UniteFiles);
    MapJoinAbsorbs(l.index, r.index, Union);
  }

  /**
   * Where both sides know an entry, its left-biased part is the same on both: the whole account with its
   * address and connection, the owner of a group unless one side has none, and a file but for its seeders.
   */
  ghost predicate Agree(l: State, r: State) {
    && (forall n :: n in l.peers && n in r.peers ==> l.peers[n] == r.peers[n])
    && (forall g :: g in l.groups && g in r.groups ==>
          l.groups[g].owner == "" || r.groups[g].owner == "" || l.groups[g].owner == r.groups[g].owner)
    && (forall k :: k in l.files && k in r.files ==>
          l.files[k].(seeders := {}) == r.files[k].(seeders := {}))
  }

  lemma CommutesAt<V>(l: map<string, V>, r: map<string, V>, f: (V, V) -> V)
    ensures MapJoin(l, r, f) == MapJoin(r, l, f) <==>
            forall k :: k in l && k in r ==> f(l[k], r[k]) == f(r[k], l[k])
  {
    var x, y := MapJoin(l, r, f), MapJoin(r, l, f);
    assert x.Keys == y.Keys;
    if x == y {
      forall k | k in l && k in r ensures f(l[k], r[k]) == f(r[k], l[k]) {
        assert x[k] == y[k];
      }
    }
  }

  /** The merge is symmetric exactly when the two trackers agree on every left-biased field. */
  lemma JoinCommutesIff(l: State, r: State)
    ensures Join(l, r) == Join(r, l) <==> Agree(l, r)
  {
    CommutesAt(l.peers, r.peers, KeepLeft);
    CommutesAt(l.groups, r.groups, UniteGroups);
    CommutesAt(l.files, r.files, UniteFiles);
    CommutesAt(l.index, r.index, Union);
    assert forall a: FileMeta, b: FileMeta ::
      UniteFiles(a, b) == UniteFiles(b, a) <==> a.(seeders := {}) == b.(seeders := {});
    assert forall a: Group, b: Group ::
      UniteGroups(a, b) == UniteGroups(b, a) <==> a.owner == "" || b.owner == "" || a.owner == b.owner;
    assert forall a: set<string>, b: set<string> :: Union(a, b) == Union(b, a);
  }

  lemma MapOrder<V(!new)>(s: map<string, V>, t: map<string, V>, u: map<string, V>, f: (V, V) -> V)
    ensures MapJoin(MapJoin(s, t, f), u, f) == MapJoin(MapJoin(s, u, f), t, f) <==>
            forall k :: k in t && k in u ==> if k in s then f(f(s[k], t[k]), u[k]) == f(f(s[k], u[k]), t[k])
                                             else f(t[k], u[k]) == f(u[k], t[k])
  {
    var x, y := MapJoin(MapJoin(s, t, f), u, f), MapJoin(MapJoin(s, u, f), t, f);
    assert x.Keys == y.Keys;
    if x == y {
      forall k | k in t && k in u
        ensures if k in s then f(f(s[k], t[k]), u[k]) == f(f(s[k], u[k]), t[k]) else f(t[k], u[k]) == f(u[k], t[k])
      {
        assert x[k] == y[k];
      }
    } else {
      var k :| k in x.Keys && x[k] != y[k];
    }
  }

  /**
   * `t` and `u` agree on what `s` does not settle: accounts and file metadata where `s` has no entry, and
   * group owners where `s` has none.
   */
  ghost predicate AgreeBeyond(s: State, t: State, u: State) {
    && (forall n :: n in t.peers && n in u.peers && n !in s.peers ==> t.peers[n] == u.peers[n])
    && (forall g :: g in t.groups && g in u.groups && (g in s.groups ==> s.groups[g].owner == "") ==>
          t.groups[g].owner == "" || u.groups[g].owner == "" || t.groups[g].owner == u.groups[g].owner)
    && (forall k :: k in t.files && k in u.files && k !in s.files ==>
          t.files[k].(seeders := {}) == u.files[k].(seeders := {}))
  }

  lemma GroupOrder(a: Group, b: Group, c: Group)
    ensures UniteGroups(a, b) == UniteGroups(b, a) <==> a.owner == "" || b.owner == "" || a.owner == b.owner
    ensures UniteGroups(UniteGroups(c, a), b) == UniteGroups(UniteGroups(c, b), a) <==>
            c.owner != "" || a.owner == "" || b.owner == "" || a.owner == b.owner
  {
    assert (c.participants + a.participants) + b.participants == (c.participants + b.participants) + a.participants;
    assert (c.applicants + a.applicants) + b.applicants == (c.applicants + b.applicants) + a.applicants;
  }

  lemma FileOrder(a: FileMeta, b: FileMeta, c: FileMeta)
    ensures UniteFiles(a, b) == UniteFiles(b, a) <==> a.(seeders := {}) == b.(seeders := {})
    ensures UniteFiles(UniteFiles(c, a), b) == UniteFiles(UniteFiles(c, b), a)
  {
    assert (c.seeders + a.seeders) + b.seeders == (c.seeders + b.seeders) + a.seeders;
  }

  lemma SetOrder(a: set<string>, b: set<string>, c: set<string>)
    ensures Union(a, b) == Union(b, a)
    ensures Union(Union(c, a), b) == Union(Union(c, b), a)
  {
  }

  /** Two merges give the same state in either order exactly when they agree beyond what was there. */
  lemma JoinOrderIff(s: State, t: State, u: State)
    ensures Join(Join(s, t), u) == Join(Join(s, u), t) <==> AgreeBeyond(s, t, u)
  {
    PeersOrder(s, t, u);
    GroupsOrder(s, t, u);
    FilesOrder(s, t, u);
    MapOrder(s.index, t.index, u.index, Union);
    forall a: set<string>, b: set<string> ensures Union(a, b) == Union(b, a) {
      SetOrder(a, b, a);
    }
    forall a: set<string>, b: set<string>, c: set<string>
      ensures Union(Union(c, a), b) == Union(Union(c, b), a)
    {
      SetOrder(a, b, c);
    }
  }

  lemma PeersOrder(s: State, t: State, u: State)
    ensures Join(Join(s, t), u).peers == Join(Join(s, u), t).peers <==>
            forall n :: n in t.peers && n in u.peers && n !in s.peers ==> t.peers[n] == u.peers[n]
  {
    MapOrder(s.peers, t.peers, u.peers, KeepLeft);
  }

  lemma GroupsOrder(s: State, t: State, u: State)
    ensures Join(Join(s, t), u).groups == Join(Join(s, u), t).groups <==>
            forall g :: g in t.groups && g in u.groups && (g in s.groups ==> s.groups[g].owner == "") ==>
              t.groups[g].owner == "" || u.groups[g].owner == "" || t.groups[g].owner == u.groups[g].owner
  {
    MapOrder(s.groups, t.groups, u.groups, UniteGroups);
    forall a: Group, b: Group
      ensures UniteGroups(a, b) == UniteGroups(b, a) <==> a.owner == "" || b.owner == "" || a.owner == b.owner
    {
      GroupOrder(a, b, a);
    }
    forall a: Group, b: Group, c: Group
      ensures UniteGroups(UniteGroups(c, a), b) == UniteGroups(UniteGroups(c, b), a) <==>
              c.owner != "" || a.owner == "" || b.owner == "" || a.owner == b.owner
    {
      GroupOrder(a, b, c);
    }
  }

  lemma FilesOrder(s: State, t: State, u: State)
    ensures Join(Join(s, t), u).files == Join(Join(s, u), t).files <==>
            forall k :: k in t.files && k in u.files && k !in s.files ==>
              t.files[k].(seeders := {}) == u.files[k].(seeders := {})
  {
    MapOrder(s.files, t.files, u.files, UniteFiles);
    forall a: FileMeta, b: FileMeta
      ensures UniteFiles(a, b) == UniteFiles(b, a) <==> a.(seeders := {}) == b.(seeders := {})
    {
      FileOrder(a, b, a);
    }
    forall a: FileMeta, b: FileMeta, c: FileMeta
      ensures UniteFiles(UniteFiles(c, a), b) == UniteFiles(UniteFiles(c, b), a)
    {
      FileOrder(a, b, c);
    }
  }

  /** Two trackers that each let somebody create the same group while apart disagree for good. */
  lemma TwoOwnersDoNotCommute()
    ensures var l := EMPTY.(groups := map["g" := Group("ann", {"ann"}, {})]);
      var r := EMPTY.(groups := map["g" := Group("bob", {"bob"}, {})]);
      Join(l, r).groups["g"].owner == "ann" && Join(r, l).groups["g"].owner == "bob"
  {
  }

  // ---------- What is present: the facts a merge can add ----------

  datatype Atom =
    | UserAtom(name: string)
    | GroupAtom(gid: string)
    | OwnerAtom(gid: string)
    | MemberAtom(gid: string, user: string)
    | ApplicantAtom(gid: string, user: string)
    | FileAtom(key: string)
    | SeederAtom(key: string, user: string)
    | IndexAtom(gid: string, fname: string)

  predicate Has(s: State, a: Atom) {
    match a
    case UserAtom(n) => n in s.peers
    case GroupAtom(g) => g in s.groups
    case OwnerAtom(g) => g in s.groups && s.groups[g].owner != ""
    case MemberAtom(g, u) => g in s.groups && u in s.groups[g].participants
    case ApplicantAtom(g, u) => g in s.groups && u in s.groups[g].applicants
    case FileAtom(k) => k in s.files
    case SeederAtom(k, u) => k in s.files && u in s.files[k].seeders
    case IndexAtom(g, f) => g in s.index && f in s.index[g]
  }

  /** Everything present in `t` is present in `s`. */
  ghost predicate Covers(s: State, t: State) {
    forall a :: Has(t, a) ==> Has(s, a)
  }

  lemma HasJoin(l: State, r: State, a: Atom)
    ensures Has(Join(l, r), a) <==> Has(l, a) || Has(r, a)
  {
  }

  lemma HasJoinAll(l: State, r: State)
    ensures forall a :: Has(Join(l, r), a) <==> Has(l, a) || Has(r, a)
  {
    forall a ensures Has(Join(l, r), a) <==> Has(l, a) || Has(r, a) {
      HasJoin(l, r, a);
    }
  }

  /** Nothing of `s` is missing from or overwritten in `t`. */
  ghost predicate Extends(t: State, s: State) {
    && (forall n :: n in s.peers ==> n in t.peers && t.peers[n] == s.peers[n])
    && (forall g :: g in s.groups ==>
          && g in t.groups
          && (s.groups[g].owner != "" ==> t.groups[g].owner == s.groups[g].owner)
          && s.groups[g].participants <= t.groups[g].participants
          && s.groups[g].applicants <= t.groups[g].applicants)
    && (forall k :: k in s.files ==>
          && k in t.files
          && s.files[k].seeders <= t.files[k].seeders
          && t.files[k].(seeders := {}) == s.files[k].(seeders := {}))
    && (forall g :: g in s.index ==> g in t.index && s.index[g] <= t.index[g])
  }

  lemma JoinExtends(l: State, r: State)
    ensures Extends(Join(l, r), l)
  {
  }

  lemma CoversGroup(l: State, r: State, g: string)
    requires Covers(l, r) && g in r.groups
    ensures g in l.groups && UniteGroups(l.groups[g], r.groups[g]) == l.groups[g]
  {
    assert Has(r, GroupAtom(g));
    assert Has(l, GroupAtom(g));
    forall u | u in r.groups[g].participants ensures u in l.groups[g].participants {
      assert Has(r, MemberAtom(g, u));
    }
    forall u | u in r.groups[g].applicants ensures u in l.groups[g].applicants {
      assert Has(r, ApplicantAtom(g, u));
    }
    assert r.groups[g].owner != "" ==> Has(r, OwnerAtom(g));
    assert l.groups[g].participants + r.groups[g].participants == l.groups[g].participants;
    assert l.groups[g].applicants + r.groups[g].applicants == l.groups[g].applicants;
  }

  lemma CoversFile(l: State, r: State, k: string)
    requires Covers(l, r) && k in r.files
    ensures k in l.files && UniteFiles(l.files[k], r.files[k]) == l.files[k]
  {
    assert Has(r, FileAtom(k));
    forall u | u in r.files[k].seeders ensures u in l.files[k].seeders {
      assert Has(r, SeederAtom(k, u));
    }
    assert l.files[k].seeders + r.files[k].seeders == l.files[k].seeders;
  }

  lemma CoversIndex(l: State, r: State, g: string)
    requires Covers(l, r) && g in l.index && g in r.index
    ensures l.index[g] + r.index[g] == l.index[g]
  {
    forall f | f in r.index[g] ensures f in l.index[g] {
      assert Has(r, IndexAtom(g, f));
    }
  }

  /** A merge leaves the state as it is exactly when it brings no new fact and no new index entry. */
  lemma JoinUnchangedIff(l: State, r: State)
    ensures Join(l, r) == l <==> Covers(l, r) && r.index.Keys <= l.index.Keys
  {
    if Covers(l, r) && r.index.Keys <= l.index.Keys {
      var j := Join(l, r);
      forall n | n in r.peers ensures n in l.peers {
        assert Has(r, UserAtom(n));
      }
      forall g | g in r.groups ensures g in l.groups && j.groups[g] == l.groups[g] {
        CoversGroup(l, r, g);
      }
      forall k | k in r.files ensures k in l.files && j.files[k] == l.files[k] {
        CoversFile(l, r, k);
      }
      forall g | g in r.index ensures j.index[g] == l.index[g] {
        CoversIndex(l, r, g);
      }
      assert j.peers == l.peers;
      assert j.groups == l.groups;
      assert j.files == l.files;
      assert j.index == l.index;
    }
    if Join(l, r) == l {
      HasJoinAll(l, r);
      assert r.index.Keys <= Join(l, r).index.Keys;
    }
  }

  lemma NothingListed(l: State, r: State, g: string)
    requires Covers(l, r) && g in r.index && g !in l.index
    ensures r.index[g] == {}
  {
    forall f ensures f !in r.index[g] {
      assert Has(r, IndexAtom(g, f)) ==> Has(l, IndexAtom(g, f));
    }
  }

  /** When a merge brings no new fact, all it can add is empty index entries. */
  lemma CoveredJoin(l: State, r: State)
    requires Covers(l, r)
    ensures Join(l, r) == l.(index := Join(l, r).index)
    ensures forall g :: g in Join(l, r).index ==>
      Join(l, r).index[g] == if g in l.index then l.index[g] else {}
  {
    var r' := r.(index := map[]);
    assert Covers(l, r') by {
      forall a | Has(r', a) ensures Has(l, a) {
        assert Has(r, a);
      }
    }
    JoinUnchangedIff(l, r');
    assert Join(l, r') == l;
    assert Join(l, r).(index := l.index) == Join(l, r');
    forall g | g in Join(l, r).index
      ensures Join(l, r).index[g] == if g in l.index then l.index[g] else {}
    {
      if g in l.index && g in r.index {
        CoversIndex(l, r, g);
      } else if g in r.index {
        NothingListed(l, r, g);
      }
    }
  }

  /** Equal but for entries of the index that list no file. */
  ghost predicate SameButEmpty(s: State, t: State) {
    && t == s.(index := t.index) && s.index.Keys <= t.index.Keys
    && forall g :: g in t.index ==> t.index[g] == if g in s.index then s.index[g] else {}
  }

  lemma SameButEmptyChain(s: State, t: State, u: State)
    requires SameButEmpty(s, t) && SameButEmpty(t, u)
    ensures SameButEmpty(s, u)
  {
  }

  // ---------- Finite sets of facts, to count them ----------

  function AtomsOf(s: State): (atoms: set<Atom>)
  {
    (set n | n in s.peers :: UserAtom(n))
    + (set g | g in s.groups :: GroupAtom(g))
    + (set g | g in s.groups && s.groups[g].owner != "" :: OwnerAtom(g))
    + (set g, u | g in s.groups && u in s.groups[g].participants :: MemberAtom(g, u))
    + (set g, u | g in s.groups && u in s.groups[g].applicants :: ApplicantAtom(g, u))
    + (set k | k in s.files :: FileAtom(k))
    + (set k, u | k in s.files && u in s.files[k].seeders :: SeederAtom(k, u))
    + (set g, f | g in s.index && f in s.index[g] :: IndexAtom(g, f))
  }

  lemma AtomsOfHas(s: State, a: Atom)
    ensures a in AtomsOf(s) <==> Has(s, a)
  {
    match a
    case UserAtom(n) =>
    case GroupAtom(g) =>
    case OwnerAtom(g) =>
    case MemberAtom(g, u) =>
    case ApplicantAtom(g, u) =>
    case FileAtom(k) =>
    case SeederAtom(k, u) =>
    case IndexAtom(g, f) =>
  }
}
