/** What each client command does to the state of one tracker, and what every command keeps. */
module Commands {
  import opened Text
  import opened States
  import opened Records
  import opened Pieces

  /**
   * A command as it reaches the state. `salt` is what the entropy source returned, "" on failure;
   * `heir` is the member the hash set happens to list first when an owner leaves.
   */
  datatype Command =
    | CreateUser(name: string, passcode: string, salt: string)
    | Login(name: string, passcode: string, ip: string, port: string)
    | Logout(name: string)
    | CreateGroup(gid: string, user: string)
    | JoinGroup(gid: string, user: string)
    | LeaveGroup(gid: string, user: string, heir: string)
    | AcceptRequest(gid: string, applicant: string, user: string)
    | RejectRequest(gid: string, applicant: string, user: string)
    | UploadFile(gid: string, fname: string, user: string, size: int, fullhash: string, numPieces: int,
                 hashes: seq<string>)
    | FileDownloaded(gid: string, fname: string, user: string)
    | StopShare(gid: string, fname: string, user: string)
    | Disconnect(name: string)

  datatype Outcome = Outcome(state: State, ok: bool)

  type Digest = string -> string

  function VerifyPassword(h: Digest, passcode: string, p: Peer): bool {
    p.salt != "" && p.hash != "" && h(p.salt + passcode) == p.hash
  }

  function FilesKey(gid: string, fname: string): string {
    gid + "/" + fname
  }

  predicate ValidFilename(fname: string) {
    && fname != "" && fname != "." && fname != ".."
    && '/' !in fname && '\\' !in fname
  }

  predicate GroupHasFile(s: State, gid: string, fname: string) {
    gid in s.index && fname in s.index[gid]
  }

  /** Who is answered when asking for a file: a registered member of a group that has it. */
  predicate MayDownload(s: State, gid: string, fname: string, uname: string) {
    && gid in s.groups && uname in s.peers && uname in s.groups[gid].participants
    && GroupHasFile(s, gid, fname) && FilesKey(gid, fname) in s.files
  }

  /** `resize` on a vector: cut, or padded with empty strings. */
  function Resize(xs: seq<string>, n: nat): (ys: seq<string>)
    ensures |ys| == n
    ensures n == |xs| ==> ys == xs
  {
    if n <= |xs| then xs[..n] else xs + seq(n - |xs|, i => "")
  }

  ghost function NewOwner(rest: set<string>, heir: string): (o: string)
    ensures if rest == {} then o == "" else o in rest
    ensures heir in rest ==> o == heir
  {
    if rest == {} then "" else if heir in rest then heir else var x :| x in rest; x
  }

  ghost function DelUser(g: Group, user: string, heir: string): Group {
    var rest := g.participants - {user};
    Group(if user != g.owner then g.owner else NewOwner(rest, heir), rest, g.applicants)
  }

  ghost function Exec(h: Digest, s: State, c: Command): Outcome
    requires c.UploadFile? ==> c.numPieces >= 0
  {
    match c
    case CreateUser(n, passcode, salt) =>
      var hash := if salt == "" then "" else h(salt + passcode);
      if n in s.peers || salt == "" || hash == "" then Outcome(s, false)
      else Outcome(s.(peers := s.peers[n := Offline(salt, hash)]), true)
    case Login(n, passcode, ip, port) =>
      if n !in s.peers || !VerifyPassword(h, passcode, s.peers[n]) then Outcome(s, false)
      else
        var p := s.peers[n].(hostip := ip, hostport := port, connected := true);
        Outcome(s.(peers := s.peers[n := p]), true)
    case Logout(n) => SignOff(s, n)
    case Disconnect(n) => if n == "" then Outcome(s, false) else SignOff(s, n)
    case CreateGroup(g, u) =>
      if u !in s.peers || g in s.groups then Outcome(s, false)
      else Outcome(s.(groups := s.groups[g := Group(u, {u}, {})]), true)
    case JoinGroup(g, u) =>
      if u !in s.peers || g !in s.groups || u in s.groups[g].participants then Outcome(s, false)
      else SetGroup(s, g, s.groups[g].(applicants := s.groups[g].applicants + {u}))
    case LeaveGroup(g, u, heir) =>
      if u !in s.peers || g !in s.groups || u !in s.groups[g].participants then Outcome(s, false)
      else SetGroup(s, g, DelUser(s.groups[g], u, heir))
    case AcceptRequest(g, a, u) =>
      if !MayDecide(s, g, a, u) then Outcome(s, false)
      else SetGroup(s, g, Group(s.groups[g].owner, s.groups[g].participants + {a}, s.groups[g].applicants - {a}))
    case RejectRequest(g, a, u) =>
      if !MayDecide(s, g, a, u) then Outcome(s, false)
      else SetGroup(s, g, s.groups[g].(applicants := s.groups[g].applicants - {a}))
    case UploadFile(g, f, u, size, full, n, hashes) =>
      if g !in s.groups || u !in s.peers || u !in s.groups[g].participants || !ValidFilename(f) then Outcome(s, false)
      else
        var k := FilesKey(g, f);
        var seeders := if k in s.files then s.files[k].seeders else {};
        var names := if g in s.index then s.index[g] else {};
        Outcome(s.(files := s.files[k := FileMeta(size, full, n, Resize(hashes, n), seeders + {u})],
                   index := s.index[g := names + {f}]), true)
    case FileDownloaded(g, f, u) =>
      if g !in s.groups || u !in s.groups[g].participants || !GroupHasFile(s, g, f) || u !in s.peers then
        Outcome(s, false)
      else
        var k := FilesKey(g, f);
        Outcome(if k in s.files then SetSeeders(s, k, s.files[k].seeders + {u}) else s, true)
    case StopShare(g, f, u) =>
      var k := FilesKey(g, f);
      if g !in s.groups || u !in s.peers || u !in s.groups[g].participants then Outcome(s, false)
      else if !GroupHasFile(s, g, f) || k !in s.files then Outcome(s, false)
      else Outcome(SetSeeders(s, k, s.files[k].seeders - {u}), true)
  }

  function SignOff(s: State, n: string): Outcome {
    if n !in s.peers then Outcome(s, false)
    else Outcome(s.(peers := s.peers[n := s.peers[n].(hostip := "", hostport := "", connected := false)]), true)
  }

  function SetGroup(s: State, g: string, x: Group): Outcome {
    Outcome(s.(groups := s.groups[g := x]), true)
  }

  function SetSeeders(s: State, k: string, seeders: set<string>): State
    requires k in s.files
  {
    s.(files := s.files[k := s.files[k].(seeders := seeders)])
  }

  predicate MayDecide(s: State, g: string, applicant: string, u: string) {
    && applicant in s.peers && g in s.groups
    && s.groups[g].owner == u && applicant in s.groups[g].applicants
  }

  /** A rejected command leaves the state alone. */
  lemma RejectedChangesNothing(h: Digest, s: State, c: Command)
    requires c.UploadFile? ==> c.numPieces >= 0
    ensures !Exec(h, s, c).ok ==> Exec(h, s, c).state == s
  {
  }

  // ---------- What the dispatcher guarantees about arguments ----------

  predicate Wellformed(c: Command) {
    match c
    case CreateUser(n, _, salt) => Word(n) && NoSpace(salt)
    case CreateGroup(g, _) => Word(g)
    case AcceptRequest(_, _, u) => Word(u)
    case UploadFile(g, f, _, size, full, n, hashes) =>
      && Word(g) && Word(f) && Word(full) && Words(hashes)
      && 0 <= size <= MAX_LL && n == |hashes| == PieceCount(size) && n <= MAX_INT
    case _ => true
  }

  ghost predicate HexDigest(h: Digest) {
    forall x :: NoSpace(h(x))
  }

  lemma {:induction false} WordKey(g: string, f: string)
    requires Word(g) && Word(f)
    ensures Word(FilesKey(g, f))
  {
    var k := FilesKey(g, f);
    assert forall i :: 0 <= i < |k| ==>
      k[i] == if i < |g| then g[i] else if i == |g| then '/' else f[i - |g| - 1];
  }

  lemma SetPeerKeepsPrintable(s: State, n: string, p: Peer)
    requires Printable(s) && Word(n) && (Visible(p) ==> Word(p.salt) && Word(p.hash))
    ensures Printable(s.(peers := s.peers[n := p]))
  {
  }

  lemma SetGroupKeepsPrintable(s: State, g: string, x: Group)
    requires Printable(s) && Word(g) && PrintableGroup(x)
    ensures Printable(SetGroup(s, g, x).state)
  {
  }

  lemma SetFileKeepsPrintable(s: State, k: string, f: FileMeta)
    requires Printable(s) && Word(k) && PrintableFile(f)
    ensures Printable(s.(files := s.files[k := f]))
  {
  }

  lemma SetIndexKeepsPrintable(s: State, g: string, names: set<string>)
    requires Printable(s) && Word(g) && AllWords(names)
    ensures Printable(s.(index := s.index[g := names]))
  {
  }

  predicate OnAccounts(c: Command) {
    c.CreateUser? || c.Login? || c.Logout? || c.Disconnect?
  }

  predicate OnGroups(c: Command) {
    c.CreateGroup? || c.JoinGroup? || c.LeaveGroup? || c.AcceptRequest? || c.RejectRequest?
  }

  /** The group an accepted group command leaves behind. */
  ghost function GroupAfter(h: Digest, s: State, c: Command): Group
    requires OnGroups(c) && Exec(h, s, c).ok
  {
    Exec(h, s, c).state.groups[c.gid]
  }

  /** An accepted group command writes one group and nothing else. */
  lemma GroupCommandFrame(h: Digest, s: State, c: Command)
    requires OnGroups(c) && Exec(h, s, c).ok
    ensures Exec(h, s, c) == SetGroup(s, c.gid, GroupAfter(h, s, c))
  {
  }

  lemma GroupAfterPrintable(h: Digest, s: State, c: Command)
    requires Printable(s) && OnGroups(c) && Exec(h, s, c).ok && Wellformed(c)
    ensures Word(c.gid) && PrintableGroup(GroupAfter(h, s, c))
  {
    if c.gid in s.groups {
      assert PrintableGroup(s.groups[c.gid]);
    }
  }

  lemma AccountsKeepPrintable(h: Digest, s: State, c: Command)
    requires Printable(s) && OnAccounts(c) && Exec(h, s, c).ok && Wellformed(c) && HexDigest(h)
    ensures Printable(Exec(h, s, c).state)
  {
    SetPeerKeepsPrintable(s, c.name, Exec(h, s, c).state.peers[c.name]);
  }

  lemma UploadKeepsPrintable(h: Digest, s: State, c: Command)
    requires Printable(s) && c.UploadFile? && Wellformed(c) && Exec(h, s, c).ok
    ensures Printable(Exec(h, s, c).state)
  {
    var k, s' := FilesKey(c.gid, c.fname), Exec(h, s, c).state;
    WordKey(c.gid, c.fname);
    assert k in s.files ==> PrintableFile(s.files[k]);
    SetFileKeepsPrintable(s, k, s'.files[k]);
    assert c.gid in s.index ==> AllWords(s.index[c.gid]);
    SetIndexKeepsPrintable(s.(files := s'.files), c.gid, s'.index[c.gid]);
  }

  lemma SeedersKeepPrintable(h: Digest, s: State, c: Command)
    requires Printable(s) && (c.FileDownloaded? || c.StopShare?)
    ensures Printable(Exec(h, s, c).state)
  {
    var k := FilesKey(c.gid, c.fname);
    if k in s.files && Exec(h, s, c).ok {
      assert PrintableFile(s.files[k]);
      SetFileKeepsPrintable(s, k, Exec(h, s, c).state.files[k]);
    }
  }

  /** Every command keeps the state printable. */
  lemma ExecKeepsPrintable(h: Digest, s: State, c: Command)
    requires Printable(s) && Wellformed(c) && HexDigest(h)
    ensures Printable(Exec(h, s, c).state)
  {
    RejectedChangesNothing(h, s, c);
    if Exec(h, s, c).ok {
      if OnAccounts(c) {
        AccountsKeepPrintable(h, s, c);
      } else if OnGroups(c) {
        GroupCommandFrame(h, s, c);
        GroupAfterPrintable(h, s, c);
        SetGroupKeepsPrintable(s, c.gid, GroupAfter(h, s, c));
      } else if c.UploadFile? {
        UploadKeepsPrintable(h, s, c);
      } else {
        SeedersKeepPrintable(h, s, c);
      }
    }
  }

  // ---------- The representation invariant ----------

  predicate GroupOk(names: set<string>, g: Group) {
    && (g.owner == "" <==> g.participants == {})
    && (g.owner != "" ==> g.owner in g.participants)
    && g.owner != "-"
    && g.participants <= names && g.applicants <= names
  }

  predicate FileOk(names: set<string>, f: FileMeta) {
    f.seeders <= names && f.numPieces == PieceCount(f.size)
  }

  /** A valid name is listed in a group's index exactly when the file table has that group's file. */
  ghost predicate IndexMatchesFiles(s: State) {
    forall g, f :: ValidFilename(f) ==> (GroupHasFile(s, g, f) <==> FilesKey(g, f) in s.files)
  }

  predicate NamesOk(s: State) {
    forall n :: n in s.peers ==> Visible(s.peers[n]) && n != "-"
  }

  predicate GroupsOk(s: State) {
    forall g :: g in s.groups ==> GroupOk(s.peers.Keys, s.groups[g])
  }

  predicate FilesOk(s: State) {
    forall k :: k in s.files ==> FileOk(s.peers.Keys, s.files[k])
  }

  ghost predicate StateInv(s: State) {
    Printable(s) && NamesOk(s) && GroupsOk(s) && FilesOk(s) && IndexMatchesFiles(s)
  }

  lemma LastSlash(g: string, f: string)
    requires '/' !in f
    ensures FilesKey(g, f)[|g|] == '/'
    ensures forall n :: |g| < n < |FilesKey(g, f)| ==> FilesKey(g, f)[n] != '/'
  {
    forall n | |g| < n < |FilesKey(g, f)| ensures FilesKey(g, f)[n] != '/' {
      assert FilesKey(g, f)[n] == f[n - |g| - 1];
    }
  }

  /** The file key determines group and file name, even when group names contain slashes. */
  lemma FilesKeyInjective(g: string, f: string, g': string, f': string)
    requires FilesKey(g, f) == FilesKey(g', f')
    requires '/' !in f && '/' !in f'
    ensures g == g' && f == f'
  {
    var k := FilesKey(g, f);
    LastSlash(g, f);
    LastSlash(g', f');
    assert |g| == |g'|;
    assert k[..|g|] == g && k[..|g|] == g';
    assert k[|g| + 1..] == f && k[|g| + 1..] == f';
  }

  lemma UploadKeepsIndex(h: Digest, s: State, c: Command)
    requires c.UploadFile? && c.numPieces >= 0 && IndexMatchesFiles(s)
    ensures IndexMatchesFiles(Exec(h, s, c).state)
  {
    var s' := Exec(h, s, c).state;
    if Exec(h, s, c).ok {
      forall g, f | ValidFilename(f)
        ensures GroupHasFile(s', g, f) <==> FilesKey(g, f) in s'.files
      {
        assert GroupHasFile(s, g, f) <==> FilesKey(g, f) in s.files;
        if FilesKey(g, f) == FilesKey(c.gid, c.fname) {
          FilesKeyInjective(g, f, c.gid, c.fname);
        }
      }
    }
  }

  lemma IndexKept(s: State, s': State)
    requires IndexMatchesFiles(s) && s'.index == s.index && s'.files.Keys == s.files.Keys
    ensures IndexMatchesFiles(s')
  {
    forall g, f | ValidFilename(f) ensures GroupHasFile(s', g, f) <==> FilesKey(g, f) in s'.files {
      assert GroupHasFile(s, g, f) <==> FilesKey(g, f) in s.files;
    }
  }

  lemma OnlyUploadAddsFiles(h: Digest, s: State, c: Command)
    requires !c.UploadFile?
    ensures Exec(h, s, c).state.index == s.index && Exec(h, s, c).state.files.Keys == s.files.Keys
  {
  }

  lemma ExecKeepsAccounts(h: Digest, s: State, c: Command)
    requires Wellformed(c) && (c.CreateUser? ==> c.name != "-") && NamesOk(s)
    ensures s.peers.Keys <= Exec(h, s, c).state.peers.Keys
    ensures NamesOk(Exec(h, s, c).state)
  {
  }

  lemma ExecKeepsVisible(h: Digest, s: State, c: Command)
    requires c.UploadFile? ==> c.numPieces >= 0
    requires forall n :: n in s.peers ==> Visible(s.peers[n])
    ensures forall n :: n in Exec(h, s, c).state.peers ==> Visible(Exec(h, s, c).state.peers[n])
  {
  }

  /** Every command keeps the representation invariant, as long as nobody registers as "-". */
  lemma ExecKeepsInv(h: Digest, s: State, c: Command)
    requires StateInv(s) && Wellformed(c) && HexDigest(h)
    requires c.CreateUser? ==> c.name != "-"
    ensures StateInv(Exec(h, s, c).state)
  {
    ExecKeepsPrintable(h, s, c);
    if c.UploadFile? {
      UploadKeepsIndex(h, s, c);
    } else {
      OnlyUploadAddsFiles(h, s, c);
      IndexKept(s, Exec(h, s, c).state);
    }
    ExecKeepsAccounts(h, s, c);
    ExecKeepsGroups(h, s, c);
    ExecKeepsFiles(h, s, c);
  }

  lemma GroupAfterOk(h: Digest, s: State, c: Command)
    requires Printable(s) && NamesOk(s) && GroupsOk(s) && OnGroups(c) && Exec(h, s, c).ok && Wellformed(c)
    ensures GroupOk(s.peers.Keys, GroupAfter(h, s, c))
  {
    if c.gid in s.groups {
      var x := s.groups[c.gid];
      assert GroupOk(s.peers.Keys, x) && PrintableGroup(x);
      if c.LeaveGroup? {
        assert GroupAfter(h, s, c) == DelUser(x, c.user, c.heir);
        assert "" !in x.participants && "-" !in x.participants;
        assert c.user != x.owner ==> x.owner in x.participants - {c.user};
      }
    } else {
      assert c.user != "" && c.user != "-";
    }
  }

  lemma GroupsOkGrow(s: State, s': State)
    requires GroupsOk(s) && s'.groups == s.groups && s.peers.Keys <= s'.peers.Keys
    ensures GroupsOk(s')
  {
    forall g | g in s'.groups ensures GroupOk(s'.peers.Keys, s'.groups[g]) {
      assert GroupOk(s.peers.Keys, s.groups[g]);
    }
  }

  lemma SetGroupOk(s: State, g: string, x: Group)
    requires GroupsOk(s) && GroupOk(s.peers.Keys, x)
    ensures GroupsOk(SetGroup(s, g, x).state)
  {
  }

  lemma OthersKeepGroups(h: Digest, s: State, c: Command)
    requires (c.UploadFile? ==> c.numPieces >= 0) && !(OnGroups(c) && Exec(h, s, c).ok)
    ensures Exec(h, s, c).state.groups == s.groups
  {
  }

  lemma ExecKeepsGroups(h: Digest, s: State, c: Command)
    requires StateInv(s) && Wellformed(c) && s.peers.Keys <= Exec(h, s, c).state.peers.Keys
    ensures GroupsOk(Exec(h, s, c).state)
  {
    if OnGroups(c) && Exec(h, s, c).ok {
      GroupCommandFrame(h, s, c);
      GroupAfterOk(h, s, c);
      SetGroupOk(s, c.gid, GroupAfter(h, s, c));
    } else {
      OthersKeepGroups(h, s, c);
      GroupsOkGrow(s, Exec(h, s, c).state);
    }
  }

  predicate OnFiles(c: Command) {
    c.UploadFile? || c.FileDownloaded? || c.StopShare?
  }

  lemma OthersKeepFiles(h: Digest, s: State, c: Command)
    requires !OnFiles(c)
    ensures Exec(h, s, c).state.files == s.files
  {
  }

  /** A file command writes one entry, for registered seeders and with the right piece count. */
  lemma FileCommandFrame(h: Digest, s: State, c: Command)
    requires OnFiles(c) && Wellformed(c) && FilesOk(s)
    ensures var s', k := Exec(h, s, c).state, FilesKey(c.gid, c.fname);
      && s'.peers == s.peers && s'.files.Keys <= s.files.Keys + {k}
      && (forall x :: x in s.files && x != k ==> x in s'.files && s'.files[x] == s.files[x])
      && (k in s'.files ==> FileOk(s.peers.Keys, s'.files[k]))
  {
    var k := FilesKey(c.gid, c.fname);
    assert k in s.files ==> FileOk(s.peers.Keys, s.files[k]);
  }

  lemma FilesOkGrow(s: State, s': State)
    requires FilesOk(s) && s'.files == s.files && s.peers.Keys <= s'.peers.Keys
    ensures FilesOk(s')
  {
    forall k | k in s'.files ensures FileOk(s'.peers.Keys, s'.files[k]) {
      assert FileOk(s.peers.Keys, s.files[k]);
    }
  }

  lemma ExecKeepsFiles(h: Digest, s: State, c: Command)
    requires FilesOk(s) && Wellformed(c) && s.peers.Keys <= Exec(h, s, c).state.peers.Keys
    ensures FilesOk(Exec(h, s, c).state)
  {
    if OnFiles(c) {
      FileCommandFrame(h, s, c);
    } else {
      OthersKeepFiles(h, s, c);
      FilesOkGrow(s, Exec(h, s, c).state);
    }
  }

  lemma JoinGroupsOk(names: set<string>, names': set<string>, a: Group, b: Group)
    requires GroupOk(names, a) && GroupOk(names', b)
    ensures GroupOk(names + names', UniteGroups(a, b))
  {
    var j := UniteGroups(a, b);
    assert a.owner != "" ==> a.owner in j.participants;
    assert b.owner != "" ==> b.owner in j.participants;
    assert a.owner == "" && b.owner == "" ==> j.participants == {};
  }

  /** What reaches the other side of the wire from a sound state is sound. */
  lemma WireKeepsInv(s: State)
    requires StateInv(s)
    ensures Wire(s) == Disconnected(s) && StateInv(Wire(s))
  {
    forall g | g in s.groups ensures s.groups[g].owner != "-" {
      assert GroupOk(s.peers.Keys, s.groups[g]);
    }
    WireExactIff(s);
    var w := Disconnected(s);
    assert w.peers.Keys == s.peers.Keys;
    WireKeepsPrintable(s);
    GroupsOkGrow(s, w);
    FilesOkGrow(s, w);
    IndexKept(s, w);
  }

  lemma JoinKeepsPrintable(l: State, r: State)
    requires Printable(l) && Printable(r)
    ensures Printable(Join(l, r))
  {
    JoinPeersPrintable(l, r);
    JoinGroupsPrintable(l, r);
    JoinFilesPrintable(l, r);
    JoinIndexPrintable(l, r);
  }

  lemma JoinPeersPrintable(l: State, r: State)
    requires Printable(l) && Printable(r)
    ensures forall n :: n in Join(l, r).peers ==>
      Word(n) && (Visible(Join(l, r).peers[n]) ==> Word(Join(l, r).peers[n].salt) && Word(Join(l, r).peers[n].hash))
  {
  }

  lemma JoinGroupsPrintable(l: State, r: State)
    requires Printable(l) && Printable(r)
    ensures forall g :: g in Join(l, r).groups ==> Word(g) && PrintableGroup(Join(l, r).groups[g])
  {
    var j := Join(l, r);
    forall g | g in j.groups ensures Word(g) && PrintableGroup(j.groups[g]) {
      assert g in l.groups ==> PrintableGroup(l.groups[g]);
      assert g in r.groups ==> PrintableGroup(r.groups[g]);
    }
  }

  lemma JoinFilesPrintable(l: State, r: State)
    requires Printable(l) && Printable(r)
    ensures forall k :: k in Join(l, r).files ==> Word(k) && PrintableFile(Join(l, r).files[k])
  {
    var j := Join(l, r);
    forall k | k in j.files ensures Word(k) && PrintableFile(j.files[k]) {
      assert k in l.files ==> PrintableFile(l.files[k]);
      assert k in r.files ==> PrintableFile(r.files[k]);
    }
  }

  lemma JoinIndexPrintable(l: State, r: State)
    requires Printable(l) && Printable(r)
    ensures forall g :: g in Join(l, r).index ==> Word(g) && AllWords(Join(l, r).index[g])
  {
  }

  lemma WireKeepsPrintable(s: State)
    requires Printable(s)
    ensures Printable(Wire(s))
  {
    forall g | g in s.groups ensures PrintableGroup(Wire(s).groups[g]) {
      assert PrintableGroup(s.groups[g]);
    }
    forall k | k in s.files ensures PrintableFile(Wire(s).files[k]) {
      assert PrintableFile(s.files[k]);
    }
  }

  lemma JoinKeepsIndex(l: State, r: State)
    requires IndexMatchesFiles(l) && IndexMatchesFiles(r)
    ensures IndexMatchesFiles(Join(l, r))
  {
    var j := Join(l, r);
    forall g, f | ValidFilename(f) ensures GroupHasFile(j, g, f) <==> FilesKey(g, f) in j.files {
      assert GroupHasFile(l, g, f) <==> FilesKey(g, f) in l.files;
      assert GroupHasFile(r, g, f) <==> FilesKey(g, f) in r.files;
    }
  }

  lemma JoinKeepsGroups(l: State, r: State)
    requires GroupsOk(l) && GroupsOk(r)
    ensures GroupsOk(Join(l, r))
  {
    var j, names := Join(l, r), l.peers.Keys + r.peers.Keys;
    assert j.peers.Keys == names;
    forall g | g in j.groups ensures GroupOk(names, j.groups[g]) {
      if g in l.groups && g in r.groups {
        JoinGroupsOk(l.peers.Keys, r.peers.Keys, l.groups[g], r.groups[g]);
      } else {
        assert g in l.groups ==> GroupOk(l.peers.Keys, l.groups[g]);
        assert g in r.groups ==> GroupOk(r.peers.Keys, r.groups[g]);
      }
    }
  }

  lemma JoinKeepsFiles(l: State, r: State)
    requires FilesOk(l) && FilesOk(r)
    ensures FilesOk(Join(l, r))
  {
    var j := Join(l, r);
    assert j.peers.Keys == l.peers.Keys + r.peers.Keys;
    forall k | k in j.files ensures FileOk(j.peers.Keys, j.files[k]) {
      assert k in l.files ==> FileOk(l.peers.Keys, l.files[k]);
      assert k in r.files ==> FileOk(r.peers.Keys, r.files[k]);
    }
  }

  lemma JoinKeepsNames(l: State, r: State)
    requires NamesOk(l) && NamesOk(r)
    ensures NamesOk(Join(l, r))
  {
  }

  /** Merging sound states gives a sound state. */
  lemma JoinKeepsInv(l: State, r: State)
    requires StateInv(l) && StateInv(r)
    ensures StateInv(Join(l, r))
  {
    JoinKeepsPrintable(l, r);
    JoinKeepsNames(l, r);
    JoinKeepsGroups(l, r);
    JoinKeepsFiles(l, r);
    JoinKeepsIndex(l, r);
  }

  // ---------- Runs of one tracker ----------

  /** One step of a tracker: a command, or a merge or load of a text whose records are sound. */
  ghost predicate TrackerStep(h: Digest, s: State, s': State) {
    || (exists c :: CommandStep(h, s, c, s'))
    || (exists text :: MergeStep(s, text, s'))
    || (exists text :: LoadStep(text, s'))
  }

  ghost predicate CommandStep(h: Digest, s: State, c: Command, s': State) {
    Wellformed(c) && (c.CreateUser? ==> c.name != "-") && s' == Exec(h, s, c).state
  }

  ghost predicate MergeStep(s: State, text: string, s': State) {
    StateInv(Sum(ParseText(text).recs)) && s' == Join(s, Sum(ParseText(text).recs))
  }

  ghost predicate LoadStep(text: string, s': State) {
    StateInv(Restored(ParseText(text).recs)) && s' == Restored(ParseText(text).recs)
  }

  /** What a sound tracker prints has sound records, merged or loaded. */
  lemma PrintoutSound(r: State, text: string)
    requires StateInv(r) && PrintedAs(r, text) && |text| <= MAX_LL
    ensures StateInv(Sum(ParseText(text).recs)) && StateInv(Restored(ParseText(text).recs))
  {
    MergeOfPrintout(r, r, text);
    LoadOfPrintout(r, text);
    WireKeepsInv(r);
  }

  /** A text may be merged into every sound state exactly when its records make a sound state. */
  lemma MergeSoundIff(text: string)
    ensures (forall s | StateInv(s) :: StateInv(Join(s, Sum(ParseText(text).recs))))
            <==> StateInv(Sum(ParseText(text).recs))
  {
    var r := Sum(ParseText(text).recs);
    EmptyInv();
    JoinUnit(r);
    if StateInv(r) {
      forall s | StateInv(s) ensures StateInv(Join(s, r)) {
        JoinKeepsInv(s, r);
      }
    } else {
      assert !StateInv(Join(EMPTY, r));
    }
  }

  ghost predicate TrackerRun(h: Digest, run: seq<State>) {
    && run != [] && run[0] == EMPTY
    && (forall i :: 0 < i < |run| ==> TrackerStepAt(h, run, i))
  }

  ghost predicate TrackerStepAt(h: Digest, run: seq<State>, i: int)
    requires 0 < i < |run|
  {
    TrackerStep(h, run[i - 1], run[i])
  }

  lemma EmptyInv()
    ensures StateInv(EMPTY)
  {
  }

  lemma StepKeepsInv(h: Digest, s: State, s': State)
    requires HexDigest(h) && StateInv(s) && TrackerStep(h, s, s')
    ensures StateInv(s')
  {
    if c :| CommandStep(h, s, c, s') {
      ExecKeepsInv(h, s, c);
    } else if text :| MergeStep(s, text, s') {
      MergeKeepsInv(s, text, s');
    }
  }

  lemma MergeKeepsInv(s: State, text: string, s': State)
    requires StateInv(s) && MergeStep(s, text, s')
    ensures StateInv(s')
  {
    JoinKeepsInv(s, Sum(ParseText(text).recs));
  }

  /** Over every run of commands, and merges and loads of sound records, the maps stay consistent. */
  lemma {:induction false} RunKeepsInv(h: Digest, run: seq<State>, i: nat)
    requires HexDigest(h) && TrackerRun(h, run) && i < |run|
    ensures StateInv(run[i])
  {
    if i == 0 {
      EmptyInv();
    } else {
      RunKeepsInv(h, run, i - 1);
      assert TrackerStepAt(h, run, i);
      StepKeepsInv(h, run[i - 1], run[i]);
    }
  }

  // ---------- Particular runs ----------

  /** A user called "-" can register and found a group, and printing the group loses its owner. */
  lemma DashOwnerLost(h: Digest, passcode: string, salt: string)
    requires salt != "" && h(salt + passcode) != ""
    ensures var a := Exec(h, EMPTY, Command.CreateUser("-", passcode, salt));
      var b := Exec(h, a.state, Command.CreateGroup("g", "-"));
      && a.ok && b.ok && b.state.groups["g"].owner == "-" && Wire(b.state).groups["g"].owner == ""
      && "-" in b.state.groups["g"].participants
  {
  }

  /** A tracker on which `ann` owns a group and `bob` is registered. */
  ghost function AnnsGroup(h: Digest, passcode: string, salt: string): State {
    var a := Exec(h, EMPTY, Command.CreateUser("ann", passcode, salt)).state;
    var b := Exec(h, a, Command.CreateUser("bob", passcode, salt)).state;
    Exec(h, b, Command.CreateGroup("g", "ann")).state
  }

  lemma AnnsGroupIs(h: Digest, passcode: string, salt: string)
    requires salt != "" && h(salt + passcode) != ""
    ensures var s := AnnsGroup(h, passcode, salt);
      s.groups == map["g" := Group("ann", {"ann"}, {})] && "ann" in s.peers && "bob" in s.peers
  {
  }

  lemma WireGroup(s: State, g: string)
    requires g in s.groups && s.groups[g].owner != "-"
    ensures g in Wire(s).groups && Wire(s).groups[g] == s.groups[g]
  {
  }

  lemma JoinedGroup(l: State, r: State, g: string)
    requires g in l.groups && g in r.groups
    ensures g in Join(l, r).groups && Join(l, r).groups[g] == UniteGroups(l.groups[g], r.groups[g])
  {
  }

  /**
   * Bob applies, the application reaches the other tracker, Ann accepts, and the other tracker pushes
   * back what it has: Bob is then a member and an applicant.
   */
  lemma AcceptedAndStillWaiting(h: Digest, passcode: string, salt: string)
    requires salt != "" && h(salt + passcode) != ""
    ensures var applied := Exec(h, AnnsGroup(h, passcode, salt), Command.JoinGroup("g", "bob"));
      var other := Join(EMPTY, Wire(applied.state));
      var accepted := Exec(h, applied.state, Command.AcceptRequest("g", "bob", "ann"));
      applied.ok && accepted.ok && Listed(Join(accepted.state, Wire(other)), "g", "bob")
  {
    AnnsGroupIs(h, passcode, salt);
    var applied := Exec(h, AnnsGroup(h, passcode, salt), Command.JoinGroup("g", "bob"));
    assert applied.state.groups["g"] == Group("ann", {"ann"}, {"bob"});
    var other := Join(EMPTY, Wire(applied.state));
    JoinUnit(Wire(applied.state));
    WireGroup(applied.state, "g");
    WireGroup(other, "g");
    var accepted := Exec(h, applied.state, Command.AcceptRequest("g", "bob", "ann"));
    JoinedGroup(accepted.state, Wire(other), "g");
  }

  /** Both a member and an applicant. */
  predicate Listed(s: State, g: string, u: string) {
    g in s.groups && u in s.groups[g].participants && u in s.groups[g].applicants
  }

  // ---------- Applicants and participants ----------

  /** No user is both a participant and an applicant of one group. */
  ghost predicate SinglyListed(s: State) {
    forall g :: g in s.groups ==> s.groups[g].participants !! s.groups[g].applicants
  }

  /** Commands never list a user twice. */
  lemma ExecKeepsSinglyListed(h: Digest, s: State, c: Command)
    requires SinglyListed(s) && (c.UploadFile? ==> c.numPieces >= 0)
    ensures SinglyListed(Exec(h, s, c).state)
  {
    var s' := Exec(h, s, c).state;
    forall g | g in s'.groups ensures s'.groups[g].participants !! s'.groups[g].applicants {
      if g in s.groups {
        assert s.groups[g].participants !! s.groups[g].applicants;
      }
    }
  }

  /** A merge does exactly when one side has already accepted whom the other still lists as waiting. */
  lemma JoinSinglyListedIff(l: State, r: State)
    requires SinglyListed(l) && SinglyListed(r)
    ensures SinglyListed(Join(l, r)) <==>
            forall g :: g in l.groups && g in r.groups ==>
              && l.groups[g].participants !! r.groups[g].applicants
              && r.groups[g].participants !! l.groups[g].applicants
  {
    var j := Join(l, r);
    if SinglyListed(j) {
      forall g | g in l.groups && g in r.groups
        ensures l.groups[g].participants !! r.groups[g].applicants
        ensures r.groups[g].participants !! l.groups[g].applicants
      {
        assert j.groups[g].participants !! j.groups[g].applicants;
      }
    } else {
      var g :| g in j.groups && !(j.groups[g].participants !! j.groups[g].applicants);
      assert g in l.groups ==> l.groups[g].participants !! l.groups[g].applicants;
      assert g in r.groups ==> r.groups[g].participants !! r.groups[g].applicants;
    }
  }

  // ---------- What commands never take away ----------

  predicate Core(a: Atom) {
    a.UserAtom? || a.GroupAtom? || a.FileAtom? || a.IndexAtom?
  }

  predicate Removes(c: Command) {
    c.LeaveGroup? || c.AcceptRequest? || c.RejectRequest? || c.StopShare?
  }

  /** Names, groups, files and index entries only ever grow; without removals everything does. */
  lemma ExecKeepsAtom(h: Digest, s: State, c: Command, a: Atom)
    requires c.UploadFile? ==> c.numPieces >= 0
    requires Has(s, a) && (Core(a) || !Removes(c))
    ensures Has(Exec(h, s, c).state, a)
  {
  }
}
