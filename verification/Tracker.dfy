/** The mutable state of one tracker: client commands, printing, merging and loading. */
module Tracker {
  import opened Text
  import opened States
  import opened Records
  import opened Commands
  import opened Persistence
  import Reply
  import opened Listings

  class TrackerState {
    var peers: map<string, Peer>
    var groups: map<string, Group>
    var groupFiles: map<string, set<string>>
    var files: map<string, FileMeta>
    var version: nat
    const digest: Digest

    ghost function Abs(): State
      reads this
    {
      State(peers, groups, files, groupFiles)
    }

    constructor (digest: Digest)
      ensures Abs() == EMPTY && version == 0 && this.digest == digest
    {
      peers, groups, files, groupFiles := map[], map[], map[], map[];
      version := 0;
      this.digest := digest;
    }

    /** The command took effect as specified; the version moves exactly when it was accepted. */
    twostate predicate Did(c: Command, ok: bool)
      requires c.UploadFile? ==> c.numPieces >= 0
      reads this
    {
      && ok == Exec(digest, old(Abs()), c).ok
      && Abs() == Exec(digest, old(Abs()), c).state
      && version == old(version) + (if ok then 1 else 0)
    }

    method CreateUser(username: string, passcode: string, salt: string) returns (ok: bool)
      modifies this
      ensures Did(Command.CreateUser(username, passcode, salt), ok)
    {
      if username in peers {
        return false;
      }
      var hash := if salt == "" then "" else digest(salt + passcode);
      if salt == "" || hash == "" {
        return false;
      }
      peers := peers[username := Peer("", "", salt, hash, false)];
      version := version + 1;
      ok := true;
    }

    method Login(username: string, passcode: string, ip: string, port: string) returns (ok: bool)
      modifies this
      ensures Did(Command.Login(username, passcode, ip, port), ok)
    {
      if username !in peers {
        return false;
      }
      if !VerifyPassword(digest, passcode, peers[username]) {
        return false;
      }
      peers := peers[username := peers[username].(hostip := ip, hostport := port, connected := true)];
      version := version + 1;
      ok := true;
    }

    method Logout(username: string) returns (ok: bool)
      modifies this
      ensures Did(Command.Logout(username), ok)
    {
      if username !in peers {
        return false;
      }
      peers := peers[username := peers[username].(connected := false, hostip := "", hostport := "")];
      version := version + 1;
      ok := true;
    }

    method HandleDisconnect(username: string) returns (found: bool)
      modifies this
      ensures Did(Command.Disconnect(username), found)
    {
      if username == "" {
        return false;
      }
      found := username in peers;
      if found {
        peers := peers[username := peers[username].(connected := false, hostip := "", hostport := "")];
        version := version + 1;
      }
    }

    method CreateGroup(gid: string, owner: string) returns (ok: bool)
      modifies this
      ensures Did(Command.CreateGroup(gid, owner), ok)
    {
      if owner !in peers {
        return false;
      }
      if gid in groups {
        return false;
      }
      groups := groups[gid := Group(owner, {owner}, {})];
      version := version + 1;
      ok := true;
    }

    method JoinGroup(gid: string, username: string) returns (ok: bool)
      modifies this
      ensures Did(Command.JoinGroup(gid, username), ok)
    {
      if username !in peers || gid !in groups {
        return false;
      }
      var g := groups[gid];
      if username in g.participants {
        return false;
      }
      groups := groups[gid := g.(applicants := g.applicants + {username})];
      version := version + 1;
      ok := true;
    }

    /** When the owner leaves, the group passes to whichever member the set lists first. */
    method LeaveGroup(gid: string, username: string) returns (ok: bool, ghost heir: string)
      modifies this
      ensures Did(Command.LeaveGroup(gid, username, heir), ok)
    {
      heir := "";
      if username !in peers || gid !in groups {
        return false, heir;
      }
      var g := groups[gid];
      if username !in g.participants {
        return false, heir;
      }
      var rest := g.participants - {username};
      var owner := g.owner;
      if username == owner {
        if rest != {} {
          owner :| owner in rest;
        } else {
          owner := "";
        }
      }
      heir := owner;
      groups := groups[gid := Group(owner, rest, g.applicants)];
      version := version + 1;
      ok := true;
    }

    method AcceptRequest(gid: string, applicant: string, owner: string) returns (ok: bool)
      modifies this
      ensures Did(Command.AcceptRequest(gid, applicant, owner), ok)
    {
      if applicant !in peers || gid !in groups {
        return false;
      }
      var g := groups[gid];
      if g.owner != owner || applicant !in g.applicants {
        return false;
      }
      g := Group(owner, g.participants + {applicant}, g.applicants - {applicant});
      groups := groups[gid := g];
      version := version + 1;
      ok := true;
    }

    method RejectRequest(gid: string, applicant: string, owner: string) returns (ok: bool)
      modifies this
      ensures Did(Command.RejectRequest(gid, applicant, owner), ok)
    {
      if applicant !in peers || gid !in groups {
        return false;
      }
      var g := groups[gid];
      if g.owner != owner || applicant !in g.applicants {
        return false;
      }
      groups := groups[gid := g.(applicants := g.applicants - {applicant})];
      version := version + 1;
      ok := true;
    }

    method UploadFile(gid: string, fname: string, uname: string, size: int, fullhash: string, numPieces: int,
                      pieceHashes: seq<string>)
      returns (ok: bool)
      requires numPieces >= 0
      modifies this
      ensures Did(Command.UploadFile(gid, fname, uname, size, fullhash, numPieces, pieceHashes), ok)
    {
      if gid !in groups {
        return false;
      }
      if uname !in peers || uname !in groups[gid].participants {
        return false;
      }
      if !ValidFilename(fname) {
        return false;
      }
      var key := gid + "/" + fname;
      var fm := if key in files then files[key] else FileMeta(0, "", 0, [], {});
      fm := fm.(size := size, fullhash := fullhash, numPieces := numPieces);
      fm := fm.(pieceHashes := Resize(pieceHashes, numPieces), seeders := fm.seeders + {uname});
      files := files[key := fm];
      groupFiles := groupFiles[gid := (if gid in groupFiles then groupFiles[gid] else {}) + {fname}];
      version := version + 1;
      ok := true;
    }

    method FileDownloaded(gid: string, fname: string, peername: string) returns (ok: bool)
      modifies this
      ensures Did(Command.FileDownloaded(gid, fname, peername), ok)
    {
      if gid !in groups || peername !in groups[gid].participants {
        return false;
      }
      if gid !in groupFiles || fname !in groupFiles[gid] {
        return false;
      }
      if peername !in peers {
        return false;
      }
      var key := gid + "/" + fname;
      if key in files {
        files := files[key := files[key].(seeders := files[key].seeders + {peername})];
      }
      version := version + 1;
      ok := true;
    }

    method StopShare(gid: string, fname: string, peername: string) returns (ok: bool)
      modifies this
      ensures Did(Command.StopShare(gid, fname, peername), ok)
    {
      if gid !in groups {
        return false;
      }
      if peername !in peers || peername !in groups[gid].participants {
        return false;
      }
      if gid !in groupFiles || fname !in groupFiles[gid] {
        return false;
      }
      var key := gid + "/" + fname;
      if key !in files {
        return false;
      }
      files := files[key := files[key].(seeders := files[key].seeders - {peername})];
      version := version + 1;
      ok := true;
    }

    // ---------- Listing ----------

    /** Every group of the tracker, in hash order. */
    method ListGroups() returns (msg: string, ghost order: seq<string>)
      ensures Enumerates(order, groups.Keys) && msg == GroupsText(order)
    {
      msg, order := GROUPS_BANNER, [];
      var rest := groups.Keys;
      while rest != {}
        invariant rest <= groups.Keys && Enumerates(order, groups.Keys - rest)
        invariant msg == GroupsText(order)
        decreases rest
      {
        var g :| g in rest;
        EnumerateOneMore(order, groups.Keys - rest, g);
        assert (order + [g])[..|order|] == order;
        assert groups.Keys - rest + {g} == groups.Keys - (rest - {g});
        msg := msg + ("\n" + g);
        order, rest := order + [g], rest - {g};
      }
    }

    /** The owner of a group is told who waits. */
    method ListRequests(gid: string, owner: string) returns (ok: bool, msg: string, ghost order: seq<string>)
      ensures ok == MaySeeRequests(Abs(), gid, owner)
      ensures ok ==> Enumerates(order, groups[gid].applicants) && msg == RequestsText(gid, order)
    {
      ok, msg, order := false, "", [];
      if owner !in peers {
        return;
      }
      if gid !in groups {
        return;
      }
      if groups[gid].owner != owner {
        return;
      }
      var rest := groups[gid].applicants;
      while rest != {}
        invariant rest <= groups[gid].applicants && Enumerates(order, groups[gid].applicants - rest)
        invariant msg == Unlines(order)
        decreases rest
      {
        var user :| user in rest;
        EnumerateOneMore(order, groups[gid].applicants - rest, user);
        UnlinesAppend(order, user);
        assert groups[gid].applicants - rest + {user} == groups[gid].applicants - (rest - {user});
        msg := msg + user + "\n";
        order, rest := order + [user], rest - {user};
      }
      ok := true;
      if msg == "" {
        UnlinesEmpty(order);
        msg := "------- Group ID " + gid + " has no pending join requests -------";
      }
    }

    /** A member is told which files the group has. */
    method ListFiles(gid: string, uname: string) returns (ok: bool, msg: string, ghost order: seq<string>)
      ensures ok == MaySeeFiles(Abs(), gid, uname)
      ensures ok ==> Enumerates(order, NamesIn(Abs(), gid)) && msg == FilesText(Abs(), gid, order)
    {
      ok, msg, order := false, "", [];
      if gid !in groups {
        return;
      }
      if uname !in peers || uname !in groups[gid].participants {
        return;
      }
      ok := true;
      if gid !in groupFiles || groupFiles[gid] == {} {
        msg := "------- No files uploaded in group " + gid + " -------";
        return;
      }
      var lines;
      lines, order := PrintFileLines(gid);
      msg := "######## Files in Group " + gid + " ########\n" + lines;
    }

    method PrintFileLines(gid: string) returns (lines: string, ghost order: seq<string>)
      requires gid in groupFiles && groupFiles[gid] != {}
      ensures Enumerates(order, groupFiles[gid]) && order != [] && lines == FileLines(Abs(), gid, order)
    {
      lines, order := "", [];
      var rest := groupFiles[gid];
      while rest != {}
        invariant rest <= groupFiles[gid] && Enumerates(order, groupFiles[gid] - rest)
        invariant rest != groupFiles[gid] ==> order != []
        invariant lines == FileLines(Abs(), gid, order)
        decreases rest
      {
        var fname :| fname in rest;
        EnumerateOneMore(order, groupFiles[gid] - rest, fname);
        assert (order + [fname])[..|order|] == order;
        assert groupFiles[gid] - rest + {fname} == groupFiles[gid] - (rest - {fname});
        order, rest := order + [fname], rest - {fname};
        var key := gid + "/" + fname;
        if key !in files {
          assert lines + "" == lines;
          continue;
        }
        lines := lines
          + (fname + " SIZE:" + Show(files[key].size) + " PIECES:" + Show(files[key].numPieces) + "\n");
      }
    }

    // ---------- Answering a download request ----------

    /** A member of the group is told about a file of the group, and who of its seeders is connected. */
    method DownloadFile(gid: string, fname: string, uname: string)
      returns (ok: bool, msg: string, ghost order: seq<string>)
      ensures ok == MayDownload(Abs(), gid, fname, uname)
      ensures ok ==> Enumerates(order, files[FilesKey(gid, fname)].seeders)
      ensures ok ==> msg == Reply.ReplyText(fname, files[FilesKey(gid, fname)], peers, order)
    {
      ok, msg, order := false, "", [];
      if gid !in groups {
        return;
      }
      if uname !in peers || uname !in groups[gid].participants {
        return;
      }
      if gid !in groupFiles || fname !in groupFiles[gid] {
        return;
      }
      var key := gid + "/" + fname;
      if key !in files {
        return;
      }
      var head := PrintHeader(fname, files[key]);
      var lines;
      lines, order := PrintContacts(files[key].seeders);
      ok, msg := true, head + "\nPEERS\n" + (lines + "\n");
    }

    method PrintHeader(fname: string, fm: FileMeta) returns (msg: string)
      ensures msg == "FILE" + Trailing(Reply.Header(fname, fm))
    {
      var fields := [fname, "SIZE", Show(fm.size), "HASH", fm.fullhash, "PIECES", Show(fm.numPieces), "PIECE_HASHES"];
      msg := "FILE " + fname + " SIZE " + Show(fm.size) + " HASH " + fm.fullhash + " PIECES "
        + Show(fm.numPieces) + " PIECE_HASHES";
      Reply.HeaderText(fname, Show(fm.size), fm.fullhash, Show(fm.numPieces));
      assert msg == "FILE" + Trailing(fields);
      var i := 0;
      assert fields + fm.pieceHashes[..0] == fields;
      while i < |fm.pieceHashes|
        invariant 0 <= i <= |fm.pieceHashes|
        invariant msg == "FILE" + Trailing(fields + fm.pieceHashes[..i])
      {
        TrailingAppend(fields + fm.pieceHashes[..i], fm.pieceHashes[i]);
        assert fields + fm.pieceHashes[..i] + [fm.pieceHashes[i]] == fields + fm.pieceHashes[..i + 1];
        msg := msg + " " + fm.pieceHashes[i];
        i := i + 1;
      }
      assert fm.pieceHashes[..i] == fm.pieceHashes;
      assert Reply.Header(fname, fm) == fields + fm.pieceHashes;
    }

    method PrintContacts(seeders: set<string>) returns (lines: string, ghost order: seq<string>)
      ensures Enumerates(order, seeders) && lines == Reply.PeerLines(peers, order)
    {
      lines, order := "", [];
      var rest := seeders;
      while rest != {}
        invariant rest <= seeders && Enumerates(order, seeders - rest)
        invariant lines == Reply.PeerLines(peers, order)
        decreases rest
      {
        var n :| n in rest;
        rest := rest - {n};
        assert (order + [n])[..|order|] == order;
        assert n !in SetOf(order) && SetOf(order + [n]) == SetOf(order) + {n};
        if n in peers && peers[n].connected {
          lines := lines + (n + " " + peers[n].hostip + " " + peers[n].hostport + "\n");
        } else {
          assert lines + "" == lines;
        }
        order := order + [n];
      }
    }

    // ---------- Printing ----------

    method PrintAccounts() returns (out: string, ghost recs: seq<Record>)
      ensures PrintedSoFar(Abs(), recs, out, UserKeys(Abs()))
    {
      out, recs := "V 1\n", [];
      ghost var mine: set<Key> := {};
      var rest := peers.Keys;
      while rest != {}
        invariant PrintedSoFar(Abs(), recs, out, mine)
        invariant rest <= peers.Keys
        invariant mine == set n | n in peers && n !in rest && Visible(peers[n]) :: UserKey(n)
        decreases rest
      {
        var n :| n in rest;
        rest := rest - {n};
        if peers[n].salt == "" || peers[n].hash == "" {
          continue;
        }
        var line := PrintUser(n, peers[n]);
        ghost var r := UserRec(n, peers[n].salt, peers[n].hash);
        PrintOneMore(Abs(), recs, out, mine, r);
        out := out + line + "\n";
        recs, mine := recs + [r], mine + {UserKey(n)};
      }
      assert mine == UserKeys(Abs());
    }

    method PrintGroups(start: string, ghost recs: seq<Record>, ghost done: set<Key>)
      returns (out: string, ghost recs': seq<Record>)
      requires PrintedSoFar(Abs(), recs, start, done)
      requires forall k :: k in done ==> !k.GroupKey?
      ensures PrintedSoFar(Abs(), recs', out, done + GroupKeys(Abs()))
    {
      out, recs' := start, recs;
      ghost var mine: set<Key> := {};
      var rest := groups.Keys;
      assert done + mine == done;
      while rest != {}
        invariant PrintedSoFar(Abs(), recs', out, done + mine)
        invariant rest <= groups.Keys
        invariant mine == set n | n in groups && n !in rest :: GroupKey(n)
        decreases rest
      {
        var n :| n in rest;
        rest := rest - {n};
        var line, r := PrintGroup(State(peers, groups, files, groupFiles), n);
        PrintOneMore(Abs(), recs', out, done + mine, r);
        out := out + line + "\n";
        recs', mine := recs' + [r], mine + {GroupKey(n)};
        assert done + mine == done + (mine - {GroupKey(n)}) + {GroupKey(n)};
      }
      assert mine == GroupKeys(Abs());
    }

    method PrintFiles(start: string, ghost recs: seq<Record>, ghost done: set<Key>)
      returns (out: string, ghost recs': seq<Record>)
      requires PrintedSoFar(Abs(), recs, start, done)
      requires forall k :: k in done ==> !k.FileKey?
      ensures PrintedSoFar(Abs(), recs', out, done + FileKeys(Abs()))
    {
      out, recs' := start, recs;
      ghost var mine: set<Key> := {};
      var rest := files.Keys;
      assert done + mine == done;
      while rest != {}
        invariant PrintedSoFar(Abs(), recs', out, done + mine)
        invariant rest <= files.Keys
        invariant mine == set n | n in files && n !in rest :: FileKey(n)
        decreases rest
      {
        var n :| n in rest;
        rest := rest - {n};
        var line, r := PrintFile(State(peers, groups, files, groupFiles), n);
        PrintOneMore(Abs(), recs', out, done + mine, r);
        out := out + line + "\n";
        recs', mine := recs' + [r], mine + {FileKey(n)};
        assert done + mine == done + (mine - {FileKey(n)}) + {FileKey(n)};
      }
      assert mine == FileKeys(Abs());
    }

    method PrintIndexes(start: string, ghost recs: seq<Record>, ghost done: set<Key>)
      returns (out: string, ghost recs': seq<Record>)
      requires PrintedSoFar(Abs(), recs, start, done)
      requires forall k :: k in done ==> !k.IndexKey?
      ensures PrintedSoFar(Abs(), recs', out, done + IndexKeys(Abs()))
    {
      out, recs' := start, recs;
      ghost var mine: set<Key> := {};
      var rest := groupFiles.Keys;
      assert done + mine == done;
      while rest != {}
        invariant PrintedSoFar(Abs(), recs', out, done + mine)
        invariant rest <= groupFiles.Keys
        invariant mine == set n | n in groupFiles && n !in rest :: IndexKey(n)
        decreases rest
      {
        var n :| n in rest;
        rest := rest - {n};
        var line, r := PrintIndex(State(peers, groups, files, groupFiles), n);
        PrintOneMore(Abs(), recs', out, done + mine, r);
        out := out + line + "\n";
        recs', mine := recs' + [r], mine + {IndexKey(n)};
        assert done + mine == done + (mine - {IndexKey(n)}) + {IndexKey(n)};
      }
      assert mine == IndexKeys(Abs());
    }

    /** Prints every map, each in whatever order its hash table lists the entries. */
    method Serialize() returns (out: string)
      ensures PrintedAs(Abs(), out)
    {
      ghost var recs;
      ghost var s := Abs();
      out, recs := PrintAccounts();
      out, recs := PrintGroups(out, recs, UserKeys(s));
      out, recs := PrintFiles(out, recs, UserKeys(s) + GroupKeys(s));
      out, recs := PrintIndexes(out, recs, UserKeys(s) + GroupKeys(s) + FileKeys(s));
      AllPrinted(s, recs, out);
    }

    // ---------- Reading records ----------

    method ApplyUser(name: string, salt: string, hash: string, replace: bool, changed: bool)
      returns (changed': bool)
      modifies this
      ensures version == old(version)
      ensures Abs() == ApplyOne(old(Abs()), UserRec(name, salt, hash), replace)
      ensures !replace ==> changed' == (changed || !Covers(old(Abs()), Single(UserRec(name, salt, hash))))
    {
      changed' := changed;
      CoversUserRec(Abs(), UserRec(name, salt, hash));
      MapJoinOne(peers, name, Offline(salt, hash), KeepLeft);
      JoinUnit(Abs());
      if !replace && name in peers {
        return;
      }
      changed' := true;
      peers := peers[name := Peer("", "", salt, hash, false)];
    }

    method ApplyGroup(gid: string, owner: string, parts: seq<string>, apps: seq<string>, changed: bool)
      returns (changed': bool)
      requires owner != ""
      modifies this
      ensures version == old(version)
      ensures Abs() == Join(old(Abs()), Single(GroupRec(gid, owner, parts, apps)))
      ensures changed' == (changed || !Covers(old(Abs()), Single(GroupRec(gid, owner, parts, apps))))
    {
      assert OwnerOf(owner) == "" <==> owner == "-";
      changed' := changed;
      CoversGroupRec(Abs(), GroupRec(gid, owner, parts, apps));
      MapJoinOne(groups, gid, Group(OwnerOf(owner), SetOf(parts), SetOf(apps)), UniteGroups);
      JoinUnit(Abs());
      if gid !in groups {
        changed' := true;
        groups := groups[gid := Group(if owner == "-" then "" else owner, SetOf(parts), SetOf(apps))];
      } else {
        var g := groups[gid];
        GrewIff(g.participants, SetOf(parts));
        GrewIff(g.applicants, SetOf(apps));
        var before := |g.participants| + |g.applicants|;
        g := g.(participants := g.participants + SetOf(parts), applicants := g.applicants + SetOf(apps));
        if before != |g.participants| + |g.applicants| {
          changed' := true;
        }
        if g.owner == "" && owner != "-" {
          g := g.(owner := owner);
          changed' := true;
        }
        groups := groups[gid := g];
      }
    }

    method ApplyFile(key: string, size: int, fullhash: string, hashes: seq<string>, seeders: seq<string>,
                     changed: bool)
      returns (changed': bool)
      modifies this
      ensures version == old(version)
      ensures Abs() == Join(old(Abs()), Single(FileRec(key, size, fullhash, hashes, seeders)))
      ensures changed' == (changed || !Covers(old(Abs()), Single(FileRec(key, size, fullhash, hashes, seeders))))
    {
      changed' := changed;
      var f := FileMeta(size, fullhash, ToInt32(|hashes|), hashes, SetOf(seeders));
      CoversFileRec(Abs(), FileRec(key, size, fullhash, hashes, seeders));
      MapJoinOne(files, key, f, UniteFiles);
      JoinUnit(Abs());
      if key !in files {
        changed' := true;
        files := files[key := f];
      } else {
        var have := files[key];
        GrewIff(have.seeders, SetOf(seeders));
        var before := |have.seeders|;
        have := have.(seeders := have.seeders + SetOf(seeders));
        if before != |have.seeders| {
          changed' := true;
        }
        files := files[key := have];
      }
    }

    /** Creates the entry even for an empty list; only new names count as a change. */
    method ApplyIndex(gid: string, items: seq<string>, changed: bool) returns (changed': bool)
      modifies this
      ensures version == old(version)
      ensures Abs() == Join(old(Abs()), Single(IndexRec(gid, items)))
      ensures changed' == (changed || !Covers(old(Abs()), Single(IndexRec(gid, items))))
    {
      changed' := changed;
      CoversIndexRec(Abs(), IndexRec(gid, items));
      MapJoinOne(groupFiles, gid, SetOf(items), Union);
      JoinUnit(Abs());
      var names := if gid in groupFiles then groupFiles[gid] else {};
      GrewIff(names, SetOf(items));
      var before := |names|;
      names := names + SetOf(items);
      groupFiles := groupFiles[gid := names];
      if before != |names| {
        changed' := true;
      }
    }

    /** Applies one split line; false for a line that is none of the four record types, or is damaged. */
    method ApplyLine(t: seq<string>, replace: bool, changed: bool) returns (ok: bool, changed': bool)
      requires Words(t) && t != [] && t[0] != "V"
      modifies this
      ensures version == old(version)
      ensures ok <==> ParseLine(t).Rec?
      ensures !ok ==> ParseLine(t).Bad? && Abs() == old(Abs()) && changed' == changed
      ensures ok ==> Abs() == ApplyOne(old(Abs()), ParseLine(t).rec, replace)
      ensures ok && !replace ==> changed' == (changed || !Covers(old(Abs()), Single(ParseLine(t).rec)))
    {
      ok, changed' := false, changed;
      if t[0] == "USER" {
        if |t| != 4 {
          return;
        }
        changed' := ApplyUser(t[1], t[2], t[3], replace, changed);
        ok := true;
      } else if t[0] == "GROUP" {
        if |t| < 4 {
          return;
        }
        var good, i, parts := TakeListAt(t, 3);
        if !good {
          return;
        }
        var good', i', apps := TakeListAt(t, i);
        if !good' {
          return;
        }
        changed' := ApplyGroup(t[1], t[2], parts, apps, changed);
        ok := true;
      } else if t[0] == "FILE" {
        if |t| < 5 {
          return;
        }
        var size := ParseLL(t[2]);
        if size.None? || size.value < 0 {
          return;
        }
        var good, i, hashes := TakeListAt(t, 4);
        if !good {
          return;
        }
        var good', i', seeders := TakeListAt(t, i);
        if !good' {
          return;
        }
        changed' := ApplyFile(t[1], size.value, t[3], hashes, seeders, changed);
        ok := true;
      } else if t[0] == "GFILE" {
        if |t| < 3 {
          return;
        }
        var good, i, items := TakeListAt(t, 2);
        if !good {
          return;
        }
        changed' := ApplyIndex(t[1], items, changed);
        ok := true;
      }
    }

    /**
     * Reads a text line by line. A bad line stops the reading and leaves the earlier records applied.
     * `changed` says whether a merge brought anything but empty index entries.
     */
    method ApplyRecords(data: string, replace: bool) returns (ok: bool, changed: bool)
      modifies this
      ensures version == old(version)
      ensures ok == ParseText(data).ok
      ensures Abs() == Applied(old(Abs()), ParseText(data).recs, replace)
      ensures !replace ==> changed == !Covers(old(Abs()), Sum(ParseText(data).recs))
    {
      changed := false;
      ghost var s0 := Abs();
      if replace {
        peers, groups, files, groupFiles := map[], map[], map[], map[];
      }
      ghost var applied: seq<Record> := [];
      var pos := 0;
      ReadStart(data, s0, replace);
      while pos < |data|
        invariant ReadSoFar(data, pos, applied, s0, Abs(), replace, changed)
        invariant version == old(version)
      {
        var line, next := GetLine(data, pos);
        var t := SplitArgs(line);
        ghost var now, was := Abs(), changed;
        if t == [] || t[0] == "V" {
          ReadSkip(data, pos, line, next, applied, s0, now, replace, changed);
        } else {
          ScanWords("", line);
          ok, changed := ApplyLine(t, replace, changed);
          if !ok {
            ReadBad(data, pos, line, next, applied, s0, now, replace, was);
            return;
          }
          ReadRecord(data, pos, line, next, applied, s0, now, replace, was, ParseLine(t).rec);
          applied := applied + [ParseLine(t).rec];
        }
        pos := next;
      }
      ReadEnd(data, applied, s0, Abs(), replace, changed);
      ok := true;
    }

    /** Union with a peer's printed state; only a merge that was accepted and added something is a new version. */
    method MergeFrom(data: string) returns (ok: bool)
      modifies this
      ensures ok == ParseText(data).ok
      ensures Abs() == Join(old(Abs()), Sum(ParseText(data).recs))
      ensures version == old(version)
        + (if ok && !Covers(old(Abs()), Sum(ParseText(data).recs)) then 1 else 0)
    {
      var changed;
      ok, changed := ApplyRecords(data, false);
      if ok && changed {
        version := version + 1;
      }
    }

    /** Replaces everything by a snapshot; the version stays. */
    method LoadSnapshot(data: string) returns (ok: bool)
      modifies this
      ensures ok == ParseText(data).ok
      ensures Abs() == Restored(ParseText(data).recs) && version == old(version)
    {
      var changed;
      ok, changed := ApplyRecords(data, true);
    }
  }
}
