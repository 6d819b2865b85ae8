/** One file's whole way: hashed and announced by one client, kept by the tracker, fetched by another. */
module Journey {
  import opened Text
  import opened States
  import opened Commands
  import opened Effects
  import opened Pieces
  import opened Sessions
  import opened Dispatch
  import opened Connections
  import opened Provenance
  import opened Messages
  import Persistence
  import Reply
  import Transfer
  import Resume

  // ---------- Announcing ----------

  function UploadWords(token: string, gid: string, fname: string, size: nat, full: string, count: nat): seq<string> {
    ["upload_file", token, gid, fname, Show(size), full, Show(count)]
  }

  function UploadMessage(token: string, gid: string, fname: string, size: nat, full: string, hashes: seq<string>)
    : string
  {
    Spaced(UploadWords(token, gid, fname, size, full, |hashes|)) + Trailing(hashes)
  }

  /** One hash for each piece of a file. */
  ghost predicate HashesOf(hash: Bytes -> string, original: Bytes, hashes: seq<string>) {
    && |hashes| == PieceCount(|original|)
    && forall i :: 0 <= i < |hashes| ==> hashes[i] == hash(Piece(original, i))
  }

  /** What follows the last slash of a path. */
  function BaseName(path: string): (name: string)
    ensures '/' !in name && |name| <= |path| && path[|path| - |name|..] == name
    ensures |name| < |path| ==> path[|path| - |name| - 1] == '/'
  {
    if path == "" || path[|path| - 1] == '/' then ""
    else
      var front := path[..|path| - 1];
      var name := BaseName(front);
      assert path[|path| - |name| - 1..] == front[|front| - |name|..] + [path[|path| - 1]];
      name + [path[|path| - 1]]
  }

  /**
   * The uploader's message, and its registry of shared files; an empty or missing file is neither shared
   * nor announced.
   */
  method Announce(path: string, disk: map<string, Bytes>, registry: map<string, string>, token: string, gid: string,
                  hash: Bytes -> string)
    returns (msg: Option<string>, registry': map<string, string>, ghost hashes: seq<string>)
    ensures msg.None? <==> path !in disk || disk[path] == []
    ensures registry' == if msg.None? then registry else registry[BaseName(path) := path]
    ensures msg.Some? ==> HashesOf(hash, disk[path], hashes)
    ensures msg.Some? ==>
      msg.value == UploadMessage(token, gid, BaseName(path), |disk[path]|, hash(disk[path]), hashes)
  {
    hashes, registry' := [], registry;
    if path !in disk || |disk[path]| == 0 {
      return None, registry', hashes;
    }
    var file := disk[path];
    var pieceHashes, numPieces := Sha1FilePieces(Some(file), hash);
    hashes := pieceHashes;
    var full := hash(file);
    var fname := BaseName(path);
    registry' := registry[fname := path];
    var text := Spaced(["upload_file", token, gid, fname, Show(|file|), full, Show(numPieces)]);
    text := Persistence.AppendList(text, pieceHashes);
    msg := Some(text);
  }

  lemma UploadTokens(token: string, gid: string, fname: string, size: nat, full: string, hashes: seq<string>)
    requires Word(token) && Word(gid) && Word(fname) && Word(full) && Words(hashes)
    ensures Tokens(UploadMessage(token, gid, fname, size, full, hashes))
         == UploadWords(token, gid, fname, size, full, |hashes|) + hashes
  {
    var ws := UploadWords(token, gid, fname, size, full, |hashes|);
    SpacedTrailing(ws, hashes);
    assert Words(ws + hashes);
    TokensOfSpaced(ws + hashes);
  }

  // ---------- Storing ----------

  /** The tracker's entry is right about a file. */
  predicate Describes(f: FileMeta, size: nat, full: string, hashes: seq<string>) {
    f.size == size && f.fullhash == full && f.numPieces == |hashes| && f.pieceHashes == hashes
  }

  /** A session of a member of the group. */
  predicate MayUpload(w: World, token: string, gid: string, now: Time) {
    && Valid(w.sessions, token, now).Some?
    && gid in w.state.groups && Valid(w.sessions, token, now).value.user in w.state.peers
    && Valid(w.sessions, token, now).value.user in w.state.groups[gid].participants
  }

  predicate Announceable(token: string, gid: string, fname: string, size: nat, full: string, hashes: seq<string>) {
    && Word(token) && Word(gid) && Word(fname) && ValidFilename(fname) && Word(full) && Words(hashes)
    && size <= MAX_LL && |hashes| == PieceCount(size) <= MAX_INT
  }

  lemma UploadCounted(token: string, gid: string, fname: string, size: nat, full: string, hashes: seq<string>)
    requires Announceable(token, gid, fname, size, full, hashes)
    ensures var args := UploadWords(token, gid, fname, size, full, |hashes|) + hashes;
      UploadCounts(args) == Some((size, |hashes|)) && args[7..] == hashes
  {
    ParseShow(size);
    ParseShow(|hashes|);
  }

  /** A member's honest announcement is accepted, and the entry is right. */
  lemma UploadStored(h: Digest, w: World, token: string, gid: string, fname: string, size: nat, full: string,
                     hashes: seq<string>, ip: string, env: Env)
    requires Announceable(token, gid, fname, size, full, hashes) && MayUpload(w, token, gid, env.now)
    ensures var raw := UploadMessage(token, gid, fname, size, full, hashes);
      var args, k := Tokens(raw), FilesKey(gid, fname);
      && args != []
      && var (w', a) := Serve(h, w, args, ip, raw, env);
         a == Done(true) && k in w'.state.files && Describes(w'.state.files[k], size, full, hashes)
  {
    UploadTokens(token, gid, fname, size, full, hashes);
    UploadCounted(token, gid, fname, size, full, hashes);
    var user := Valid(w.sessions, token, env.now).value.user;
    var args := UploadWords(token, gid, fname, size, full, |hashes|) + hashes;
    assert CommandFor(args, user, env.heir)
        == Some(Command.UploadFile(gid, fname, user, size, full, |hashes|, hashes));
  }

  // ---------- Keeping ----------

  predicate Uploads(x: Input, k: string) {
    |Args(x)| >= 7 && Args(x)[0] == "upload_file" && FilesKey(Args(x)[2], Args(x)[3]) == k
  }

  /** The entry is still there and, but for its seeders, what it was. */
  predicate Kept(s: State, t: State, k: string)
    requires k in s.files
  {
    k in t.files && t.files[k].(seeders := {}) == s.files[k].(seeders := {})
  }

  lemma ExecKeepsEntry(h: Digest, s: State, c: Command, k: string)
    requires k in s.files && (c.UploadFile? ==> c.numPieces >= 0 && FilesKey(c.gid, c.fname) != k)
    ensures Kept(s, Exec(h, s, c).state, k)
  {
  }

  lemma SessionKeepsEntry(h: Digest, w: World, args: seq<string>, env: Env, k: string)
    requires |args| >= 2 && k in w.state.files
    requires !(|args| >= 7 && args[0] == "upload_file" && FilesKey(args[2], args[3]) == k)
    ensures Kept(w.state, WithSession(h, w, args, env).0.state, k)
  {
    var v := Valid(w.sessions, args[1], env.now);
    if v.Some? && Changes(args[0]) && CommandFor(args, v.value.user, env.heir).Some? {
      ExecKeepsEntry(h, w.state, CommandFor(args, v.value.user, env.heir).value, k);
    }
  }

  lemma OthersKeepEntry(h: Digest, w: World, args: seq<string>, ip: string, raw: string, env: Env, k: string)
    requires args != [] && k in w.state.files
    requires |args| < 2 || args[0] in {"SYNC_REQ", "STATE", "create_user", "login", "logout"}
    ensures Kept(w.state, Serve(h, w, args, ip, raw, env).0.state, k)
  {
  }

  lemma StepKeepsEntry(h: Digest, s: Service, x: Input, k: string)
    requires k in s.world.state.files && !Uploads(x, k)
    ensures Kept(s.world.state, NextOf(h, s, x).world.state, k)
  {
    var args := Args(x);
    if args == [] {
    } else if |args| >= 2 && args[0] !in {"SYNC_REQ", "STATE", "create_user", "login", "logout"} {
      SessionKeepsEntry(h, s.world, args, x.env, k);
    } else {
      OthersKeepEntry(h, s.world, args, x.ip, x.raw, x.env, k);
    }
  }

  /** No command and no merge alters an entry, except another upload of the same name. */
  lemma {:induction false} EntryKept(h: Digest, run: seq<Service>, xs: seq<Input>, i: nat, j: nat, k: string)
    requires ServiceRun(h, run, xs) && i <= j < |run| && k in run[i].world.state.files
    requires forall m :: i <= m < j ==> !Uploads(xs[m], k)
    ensures Kept(run[i].world.state, run[j].world.state, k)
  {
    if i < j {
      EntryKept(h, run, xs, i, j - 1, k);
      assert StepAt(h, run, xs, j - 1);
      StepKeepsEntry(h, run[j - 1], xs[j - 1], k);
    }
  }

  // ---------- Fetching ----------

  /** At step i a member announced the file, and nobody announced that name again before moment j. */
  ghost predicate Announced(run: seq<Service>, xs: seq<Input>, i: nat, j: nat, token: string, gid: string,
                            fname: string, size: nat, full: string, hashes: seq<string>)
    requires |run| == |xs| + 1
  {
    && i < j < |run| && xs[i].Message?
    && Announceable(token, gid, fname, size, full, hashes)
    && xs[i].raw == UploadMessage(token, gid, fname, size, full, hashes)
    && MayUpload(run[i].world, token, gid, xs[i].env.now)
    && forall m :: i < m < j ==> !Uploads(xs[m], FilesKey(gid, fname))
  }

  lemma EntryRight(h: Digest, run: seq<Service>, xs: seq<Input>, i: nat, j: nat, token: string, gid: string,
                   fname: string, size: nat, full: string, hashes: seq<string>)
    requires ServiceRun(h, run, xs) && Announced(run, xs, i, j, token, gid, fname, size, full, hashes)
    ensures var k, s := FilesKey(gid, fname), run[j].world.state;
      k in s.files && Describes(s.files[k], size, full, hashes)
  {
    EntryStored(h, run, xs, i, j, token, gid, fname, size, full, hashes);
    EntryKept(h, run, xs, i + 1, j, FilesKey(gid, fname));
    StillDescribes(run[i + 1].world.state, run[j].world.state, FilesKey(gid, fname), size, full, hashes);
  }

  lemma StillDescribes(s: State, t: State, k: string, size: nat, full: string, hashes: seq<string>)
    requires k in s.files && Describes(s.files[k], size, full, hashes) && Kept(s, t, k)
    ensures k in t.files && Describes(t.files[k], size, full, hashes)
  {
  }

  lemma EntryStored(h: Digest, run: seq<Service>, xs: seq<Input>, i: nat, j: nat, token: string, gid: string,
                    fname: string, size: nat, full: string, hashes: seq<string>)
    requires ServiceRun(h, run, xs) && Announced(run, xs, i, j, token, gid, fname, size, full, hashes)
    ensures var k, s := FilesKey(gid, fname), run[i + 1].world.state;
      k in s.files && Describes(s.files[k], size, full, hashes)
  {
    UploadStored(h, run[i].world, token, gid, fname, size, full, hashes, xs[i].ip, xs[i].env);
    assert StepAt(h, run, xs, i);
  }

  lemma SoundPlan(s: State, size: nat, full: string, hashes: seq<string>, asker: string, gid: string,
                  fname: string, text: string)
    requires StateInv(s) && Reply.Addressed(s.peers) && Word(asker) && Word(gid) && Word(fname)
    requires DownloadText(s, ["download_file", asker, gid, fname], text)
    requires !Reply.Keyword(fname) && Describes(s.files[FilesKey(gid, fname)], size, full, hashes)
    ensures Reply.Parse(text).Some?
    ensures var plan := Reply.Parse(text).value;
      plan.size == size && plan.fullhash == full && plan.pieceHashes == hashes
  {
    var contacts := DownloadIsReadable(s, ["download_file", asker, gid, fname], text);
  }

  /** What a later download request is answered is read as the announced metadata. */
  lemma PlanRight(h: Digest, run: seq<Service>, xs: seq<Input>, i: nat, j: nat, token: string, gid: string,
                  fname: string, size: nat, full: string, hashes: seq<string>, asker: string, text: string)
    requires HexDigest(h) && ServiceRun(h, run, xs) && SoundWorld(run[0].world)
    requires forall m :: 0 <= m < |xs| ==> SoundInput(xs[m])
    requires Announced(run, xs, i, j, token, gid, fname, size, full, hashes)
    requires Word(asker) && !Reply.Keyword(fname)
    requires DownloadText(run[j].world.state, ["download_file", asker, gid, fname], text)
    ensures Reply.Parse(text).Some?
    ensures var plan := Reply.Parse(text).value;
      plan.size == size && plan.fullhash == full && plan.pieceHashes == hashes
  {
    var s := run[j].world.state;
    EntryRight(h, run, xs, i, j, token, gid, fname, size, full, hashes);
    assert StateInv(s) && Reply.Addressed(s.peers) by {
      RunKeepsSound(h, run, xs, j);
    }
    SoundPlan(s, size, full, hashes, asker, gid, fname, text);
  }

  // ---------- Who is told, and about whom ----------

  /** After the announcement exactly the members of the group get an answer with the file. */
  lemma MembersAreTold(h: Digest, run: seq<Service>, xs: seq<Input>, i: nat, j: nat, token: string, gid: string,
                       fname: string, size: nat, full: string, hashes: seq<string>, asker: string, u: string,
                       ip: string, env: Env)
    requires HexDigest(h) && ServiceRun(h, run, xs) && SoundWorld(run[0].world)
    requires forall m :: 0 <= m < |xs| ==> SoundInput(xs[m])
    requires Announced(run, xs, i, j, token, gid, fname, size, full, hashes)
    requires Words(["download_file", asker, gid, fname]) && Speaks(run[j].world, asker, env.now, u)
    ensures var (w', a) := Sent(h, run[j].world, ["download_file", asker, gid, fname], ip, env);
      a.FileText? && (a.ok <==> Member(run[j].world.state, gid, u))
  {
    EntryRight(h, run, xs, i, j, token, gid, fname, size, full, hashes);
    RunKeepsSound(h, run, xs, j);
    ToldAt(h, run[j].world, gid, fname, asker, u, ip, env);
  }

  lemma ToldAt(h: Digest, w: World, gid: string, fname: string, asker: string, u: string, ip: string, env: Env)
    requires SoundWorld(w) && ValidFilename(fname) && FilesKey(gid, fname) in w.state.files
    requires Words(["download_file", asker, gid, fname]) && Speaks(w, asker, env.now, u)
    ensures var (w', a) := Sent(h, w, ["download_file", asker, gid, fname], ip, env);
      a.FileText? && (a.ok <==> Member(w.state, gid, u))
  {
    DownloadMessage(h, w, asker, gid, fname, u, ip, env);
    ListedAndRegistered(w.state, gid, fname, u);
  }

  lemma ListedAndRegistered(s: State, g: string, f: string, u: string)
    requires StateInv(s) && ValidFilename(f) && FilesKey(g, f) in s.files
    ensures Has(s, IndexAtom(g, f)) && (Member(s, g, u) ==> Registered(s, u))
  {
    assert GroupHasFile(s, g, f);
    if Member(s, g, u) {
      assert GroupOk(s.peers.Keys, s.groups[g]);
    }
  }

  /** A reply in this state lists the user, with this address. */
  ghost predicate Offers(s: State, g: string, f: string, asker: string, u: string) {
    forall text :: DownloadText(s, ["download_file", asker, g, f], text) ==>
      Reply.Parse(text).Some?
      && exists c :: c in Reply.Parse(text).value.contacts && c.name == u && u in s.peers
                     && c.ip == s.peers[u].hostip && c.port == s.peers[u].hostport
  }

  ghost predicate OffersNot(s: State, g: string, f: string, asker: string, u: string) {
    forall text :: DownloadText(s, ["download_file", asker, g, f], text) ==>
      Reply.Parse(text).Some? && forall c :: c in Reply.Parse(text).value.contacts ==> c.name != u
  }

  lemma OfferedIff(s: State, g: string, f: string, asker: string, u: string)
    requires StateInv(s) && Reply.Addressed(s.peers) && Words(["download_file", asker, g, f]) && !Reply.Keyword(f)
    requires Registered(s, u)
    ensures Seeds(s, FilesKey(g, f), u) && s.peers[u].connected ==> Offers(s, g, f, asker, u)
    ensures !(Seeds(s, FilesKey(g, f), u) && s.peers[u].connected) ==> OffersNot(s, g, f, asker, u)
  {
    forall text | DownloadText(s, ["download_file", asker, g, f], text)
      ensures Reply.Parse(text).Some?
      ensures Seeds(s, FilesKey(g, f), u) && s.peers[u].connected ==>
        Reply.Contact(u, s.peers[u].hostip, s.peers[u].hostport) in Reply.Parse(text).value.contacts
      ensures !(Seeds(s, FilesKey(g, f), u) && s.peers[u].connected) ==>
        forall c :: c in Reply.Parse(text).value.contacts ==> c.name != u
    {
      ReplyOffers(s, g, f, asker, text);
    }
  }

  lemma ReplyOffers(s: State, g: string, f: string, asker: string, text: string)
    requires StateInv(s) && Reply.Addressed(s.peers) && Words(["download_file", asker, g, f]) && !Reply.Keyword(f)
    requires DownloadText(s, ["download_file", asker, g, f], text)
    ensures Reply.Parse(text).Some?
    ensures forall c :: c in Reply.Parse(text).value.contacts <==>
      && Seeds(s, FilesKey(g, f), c.name) && c.name in s.peers && s.peers[c.name].connected
      && c.ip == s.peers[c.name].hostip && c.port == s.peers[c.name].hostport
  {
    var contacts := DownloadIsReadable(s, ["download_file", asker, g, f], text);
    SeedersKnown(s, FilesKey(g, f));
  }

  lemma SeedersKnown(s: State, k: string)
    requires StateInv(s) && k in s.files
    ensures forall u :: Seeds(s, k, u) ==> u in s.peers
  {
    assert FileOk(s.peers.Keys, s.files[k]);
  }

  /** Who reports a finished download, and is connected, is offered to whoever asks next. */
  lemma FinisherIsOffered(h: Digest, w: World, token: string, g: string, f: string, u: string, asker: string,
                          ip: string, env: Env)
    requires HexDigest(h) && SoundWorld(w) && Speaks(w, token, env.now, u) && !Reply.Keyword(f)
    requires Words(["file_downloaded", token, g, f]) && Words(["download_file", asker, g, f])
    requires FilesKey(g, f) in w.state.files && u in w.state.peers && w.state.peers[u].connected
    requires Sent(h, w, ["file_downloaded", token, g, f], ip, env).1 == Done(true)
    ensures Offers(Sent(h, w, ["file_downloaded", token, g, f], ip, env).0.state, g, f, asker, u)
  {
    var t := Sent(h, w, ["file_downloaded", token, g, f], ip, env).0.state;
    SentKeepsSound(h, w, ["file_downloaded", token, g, f], ip, env);
    NowSeeds(h, w, token, g, f, u, ip, env);
    OfferedIff(t, g, f, asker, u);
  }

  lemma NowSeeds(h: Digest, w: World, token: string, g: string, f: string, u: string, ip: string, env: Env)
    requires Words(["file_downloaded", token, g, f]) && Speaks(w, token, env.now, u) && FilesKey(g, f) in w.state.files
    requires Sent(h, w, ["file_downloaded", token, g, f], ip, env).1 == Done(true)
    ensures var t := Sent(h, w, ["file_downloaded", token, g, f], ip, env).0.state;
      Seeds(t, FilesKey(g, f), u) && t.peers == w.state.peers
  {
    FileDownloadedMessage(h, w, token, g, f, u, ip, env);
  }

  lemma SentKeepsSound(h: Digest, w: World, ts: seq<string>, ip: string, env: Env)
    requires HexDigest(h) && SoundWorld(w) && Words(ts) && |ts| >= 2 && !Open(ts[0])
    ensures SoundWorld(Sent(h, w, ts, ip, env).0)
  {
    SentIs(h, w, ts, ip, env);
    SessionKeepsSound(h, w, ts, env);
  }

  /** Who stops sharing is offered no longer. */
  lemma QuitterIsNotOffered(h: Digest, w: World, token: string, g: string, f: string, u: string, asker: string,
                            ip: string, env: Env)
    requires HexDigest(h) && SoundWorld(w) && Speaks(w, token, env.now, u) && !Reply.Keyword(f)
    requires Words(["stop_share", token, g, f]) && Words(["download_file", asker, g, f])
    requires Sent(h, w, ["stop_share", token, g, f], ip, env).1 == Done(true)
    ensures OffersNot(Sent(h, w, ["stop_share", token, g, f], ip, env).0.state, g, f, asker, u)
  {
    var t := Sent(h, w, ["stop_share", token, g, f], ip, env).0.state;
    SentKeepsSound(h, w, ["stop_share", token, g, f], ip, env);
    SeedsNoMore(h, w, token, g, f, u, ip, env);
    OfferedIff(t, g, f, asker, u);
  }

  lemma SeedsNoMore(h: Digest, w: World, token: string, g: string, f: string, u: string, ip: string, env: Env)
    requires Words(["stop_share", token, g, f]) && Speaks(w, token, env.now, u)
    requires Sent(h, w, ["stop_share", token, g, f], ip, env).1 == Done(true)
    ensures var t := Sent(h, w, ["stop_share", token, g, f], ip, env).0.state;
      !Seeds(t, FilesKey(g, f), u) && Registered(t, u)
  {
    StopShareMessage(h, w, token, g, f, u, ip, env);
  }

  /** The download a plan leads to; `seeder` is one of its contacts and shares the file. */
  function JobOf(fname: string, original: Bytes, plan: Reply.Plan, hash: Bytes -> string, seeder: Transfer.Seeder)
    : Transfer.Job
  {
    var n := |plan.contacts|;
    var workers := Transfer.NumWorkers(|plan.pieceHashes|, n);
    Transfer.Job(fname, original, plan.pieceHashes, hash, n, if workers < 0 then 0 else workers, Some(seeder))
  }

  /**
   * From one client's disk to another's: a member announces a file it has hashed; whatever clients and
   * the other tracker send meanwhile, as long as that name is not announced again, a later download
   * request is answered so that the downloader ends up with the very bytes, under any interleaving of its
   * workers and any behaviour of the contacts but one, which serves requests from a disk that has them.
   */
  lemma FileTravels(h: Digest, run: seq<Service>, xs: seq<Input>, i: nat, j: nat, token: string, gid: string,
                    fname: string, original: Bytes, hash: Bytes -> string, full: string, hashes: seq<string>,
                    asker: string, text: string, seeder: Transfer.Seeder, download: seq<Transfer.Download>)
    requires HexDigest(h) && ServiceRun(h, run, xs) && SoundWorld(run[0].world)
    requires forall m :: 0 <= m < |xs| ==> SoundInput(xs[m])
    requires original != [] && HashesOf(hash, original, hashes)
    requires Announced(run, xs, i, j, token, gid, fname, |original|, full, hashes)
    requires Word(asker) && !Reply.Keyword(fname)
    requires DownloadText(run[j].world.state, ["download_file", asker, gid, fname], text)
    requires Reply.Parse(text).Some? && seeder.peer < |Reply.Parse(text).value.contacts|
    requires Transfer.Shares(seeder, fname, original)
    requires Resume.Life(JobOf(fname, original, Reply.Parse(text).value, hash, seeder), None, [], download)
    requires Transfer.AllDone(download[|download| - 1])
    ensures download[|download| - 1].file == original
  {
    PlanRight(h, run, xs, i, j, token, gid, fname, |original|, full, hashes, asker, text);
    RightPlanFetched(fname, original, hash, hashes, Reply.Parse(text).value, seeder, download);
  }

  lemma RightPlanFetched(fname: string, original: Bytes, hash: Bytes -> string, hashes: seq<string>,
                         plan: Reply.Plan, seeder: Transfer.Seeder, download: seq<Transfer.Download>)
    requires original != [] && HashesOf(hash, original, hashes) && plan.pieceHashes == hashes && |hashes| <= MAX_INT
    requires seeder.peer < |plan.contacts| && Transfer.Shares(seeder, fname, original)
    requires Resume.Life(JobOf(fname, original, plan, hash, seeder), None, [], download)
    requires Transfer.AllDone(download[|download| - 1])
    ensures download[|download| - 1].file == original
  {
    Resume.EndToEnd(JobOf(fname, original, plan, hash, seeder), download);
  }
}
