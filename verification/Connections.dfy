/** Client connections of one tracker, over whole runs: what the tracker's state keeps. */
module Connections {
  import opened Text
  import opened States
  import opened Records
  import opened Commands
  import opened Pieces
  import opened Sessions
  import opened Dispatch
  import Merging
  import Reply
  import Replication

  /** Whom a connection last logged in as, and the token it got; both empty when nobody. */
  datatype Conn = Conn(user: string, token: string)

  const NOBODY := Conn("", "")

  /** The tracker with its open connections; one not listed has not logged in. */
  datatype Service = Service(world: World, conns: map<nat, Conn>)

  datatype Input =
    | Message(conn: nat, ip: string, raw: string, env: Env)
    | Drop(conn: nat)

  function ConnOf(s: Service, c: nat): Conn {
    if c in s.conns then s.conns[c] else NOBODY
  }

  function Remembered(c: Conn, args: seq<string>, a: Answer): Conn
    requires args != []
  {
    if args[0] == "login" && a.SignedIn? && |args| > 1 then Conn(args[1], a.token)
    else if args[0] == "logout" then NOBODY
    else c
  }

  /** A dropped connection takes its session along, and its user is no longer reachable. */
  ghost function Dropped(h: Digest, w: World, c: Conn): World {
    var w' := if c.token != "" then w.(sessions := w.sessions - {c.token}) else w;
    Execute(h, w', Command.Disconnect(c.user)).0
  }

  ghost function NextOf(h: Digest, s: Service, x: Input): Service {
    match x
    case Drop(c) => Service(Dropped(h, s.world, ConnOf(s, c)), s.conns - {c})
    case Message(c, ip, raw, env) =>
      var args := Tokens(raw);
      if args == [] then s
      else
        var (w', a) := Serve(h, s.world, args, ip, raw, env);
        Service(w', s.conns[c := Remembered(ConnOf(s, c), args, a)])
  }

  /** The loop that reads one connection, a message or the end of it at a time. */
  class Connection {
    var sessionUser: string
    var sessionToken: string

    constructor ()
      ensures Conn(sessionUser, sessionToken) == NOBODY
    {
      sessionUser, sessionToken := "", "";
    }

    /** `None` answers a message without any word. */
    method Handle(server: Server, buff: string, ip: string, now: Time, salt: string, token: string)
      returns (answer: Option<Answer>, ghost env: Env)
      modifies this, server.state, server.sessions
      ensures env.now == now && env.salt == salt && env.token == token
      ensures answer.None? <==> Tokens(buff) == []
      ensures answer.None? ==> server.Value() == old(server.Value())
      ensures answer.None? ==> Conn(sessionUser, sessionToken) == old(Conn(sessionUser, sessionToken))
      ensures answer.Some? ==>
        (server.Value(), answer.value) == Serve(server.state.digest, old(server.Value()), Tokens(buff), ip, buff, env)
      ensures answer.Some? ==>
        Conn(sessionUser, sessionToken) == Remembered(old(Conn(sessionUser, sessionToken)), Tokens(buff), answer.value)
    {
      var comds := SplitArgs(buff);
      if comds == [] {
        env := Env(now, salt, token, "", "");
        return None, env;
      }
      var reply;
      reply, env := server.Dispatch(comds, ip, buff, now, salt, token);
      if comds[0] == "login" && reply.SignedIn? {
        LoginHasName(server.state.digest, old(server.Value()), comds, ip, buff, env);
        sessionUser, sessionToken := comds[1], reply.token;
      } else if comds[0] == "logout" {
        sessionUser, sessionToken := "", "";
      }
      answer := Some(reply);
    }

    method Close(server: Server)
      modifies server.state, server.sessions
      ensures server.Value() == Dropped(server.state.digest, old(server.Value()), Conn(sessionUser, sessionToken))
    {
      if sessionToken != "" {
        var user := server.sessions.Destroy(sessionToken);
      }
      var found := server.state.HandleDisconnect(sessionUser);
    }
  }

  lemma LoginHasName(h: Digest, w: World, args: seq<string>, ip: string, raw: string, env: Env)
    requires args != [] && args[0] == "login" && Serve(h, w, args, ip, raw, env).1.SignedIn?
    ensures |args| == 4
  {
  }

  // ---------- The two messages trackers send each other ----------

  /** A pushed frame is dispatched as a merge of exactly the printed state in it. */
  lemma PushIsReceived(h: Digest, w: World, text: string, ip: string, env: Env)
    ensures var raw := Replication.PushFrame(text);
      Tokens(raw) != [] && Serve(h, w, Tokens(raw), ip, raw, env) == MergeIn(w, text)
  {
    var raw := Replication.PushFrame(text);
    assert raw == "STATE" + (" " + text);
    TokensWord("STATE", " " + text);
    assert StatePayload("STATE" + (" " + text)) == Some(text) by {
      BlankAfter("STATE", text);
    }
  }

  lemma {:induction false} BlankAfter(w: string, text: string)
    requires ' ' !in w
    ensures StatePayload(w + (" " + text)) == Some(text)
  {
    if w == "" {
      assert w + (" " + text) == " " + text;
      assert (" " + text)[1..] == text;
    } else {
      assert (w + (" " + text))[1..] == w[1..] + (" " + text);
      BlankAfter(w[1..], text);
    }
  }

  // ---------- Arguments ----------

  lemma UploadWellformed(args: seq<string>, user: string, heir: string)
    requires |args| >= 7 && args[0] == "upload_file" && Words(args) && UploadCounts(args).Some?
    ensures Wellformed(CommandFor(args, user, heir).value)
  {
    assert |args[7..]| == UploadCounts(args).value.1;
  }

  /** Whatever words a session sends, the command that reaches the state has sound arguments. */
  lemma CommandWellformed(args: seq<string>, user: string, heir: string)
    requires |args| >= 2 && Words(args) && Word(user) && CommandFor(args, user, heir).Some?
    ensures Wellformed(CommandFor(args, user, heir).value) && !CommandFor(args, user, heir).value.CreateUser?
  {
    if args[0] == "upload_file" {
      UploadWellformed(args, user, heir);
    }
  }

  // ---------- Invariant of whole runs ----------

  /** A state message carries records that make a sound state; the tracker itself does not insist on it. */
  ghost predicate SoundPayload(raw: string) {
    Tokens(raw) != [] && Tokens(raw)[0] == "STATE" && StatePayload(raw).Some? ==>
      StateInv(Merging.Payload(StatePayload(raw).value))
  }

  ghost predicate SoundInput(x: Input) {
    x.Message? ==>
      && Word(x.ip) && NoSpace(x.env.salt) && SoundPayload(x.raw)
      && !(|Tokens(x.raw)| == 3 && Tokens(x.raw)[0] == "create_user" && Tokens(x.raw)[1] == "-")
  }

  ghost predicate SoundWorld(w: World) {
    && StateInv(w.state) && Reply.Addressed(w.state.peers)
    && forall t :: t in w.sessions ==> Word(w.sessions[t].user)
  }

  lemma ExecKeepsAddressed(h: Digest, s: State, c: Command)
    requires Reply.Addressed(s.peers) && (c.UploadFile? ==> c.numPieces >= 0)
    requires c.Login? ==> Word(c.ip) && Word(c.port)
    ensures Reply.Addressed(Exec(h, s, c).state.peers)
  {
  }

  lemma ExecuteKeepsSound(h: Digest, w: World, c: Command)
    requires HexDigest(h) && SoundWorld(w) && Wellformed(c)
    requires c.CreateUser? ==> c.name != "-"
    requires c.Login? ==> Word(c.ip) && Word(c.port)
    ensures SoundWorld(Execute(h, w, c).0)
  {
    ExecKeepsInv(h, w.state, c);
    ExecKeepsAddressed(h, w.state, c);
  }

  /** What comes by wire is never connected. */
  lemma {:induction false} RecordsOffline(recs: seq<Record>)
    ensures forall n :: n in Sum(recs).peers ==> !Sum(recs).peers[n].connected
  {
    if recs != [] {
      RecordsOffline(recs[1..]);
      var one, rest := Single(recs[0]), Sum(recs[1..]);
      forall n | n in Join(one, rest).peers ensures !Join(one, rest).peers[n].connected {
        assert n in one.peers || n in rest.peers;
      }
    }
  }

  lemma ReceiveKeepsSound(w: World, payload: string)
    requires SoundWorld(w) && StateInv(Merging.Payload(payload))
    ensures SoundWorld(MergeIn(w, payload).0)
  {
    var r := Merging.Payload(payload);
    JoinKeepsInv(w.state, r);
    RecordsOffline(ParseText(payload).recs);
    var j := Join(w.state, r);
    forall n | n in j.peers && j.peers[n].connected
      ensures Word(j.peers[n].hostip) && Word(j.peers[n].hostport)
    {
      assert n in w.state.peers;
    }
  }

  lemma SessionKeepsSound(h: Digest, w: World, args: seq<string>, env: Env)
    requires HexDigest(h) && SoundWorld(w) && |args| >= 2 && Words(args)
    ensures SoundWorld(WithSession(h, w, args, env).0)
  {
    var w' := w.(sessions := AfterLookup(w.sessions, args[1], env.now));
    match Valid(w.sessions, args[1], env.now)
    case None =>
    case Some(s) =>
      if Changes(args[0]) && CommandFor(args, s.user, env.heir).Some? {
        CommandWellformed(args, s.user, env.heir);
        assert SoundWorld(w');
        ExecuteKeepsSound(h, w', CommandFor(args, s.user, env.heir).value);
      }
  }

  lemma ImportKeepsSound(w: World, raw: string)
    requires SoundWorld(w) && (StatePayload(raw).Some? ==> StateInv(Merging.Payload(StatePayload(raw).value)))
    ensures SoundWorld(Imported(w, raw).0)
  {
    if StatePayload(raw).Some? {
      ReceiveKeepsSound(w, StatePayload(raw).value);
    }
  }

  lemma RegisterKeepsSound(h: Digest, w: World, args: seq<string>, env: Env)
    requires HexDigest(h) && SoundWorld(w) && args != [] && Words(args) && NoSpace(env.salt)
    requires |args| == 3 ==> args[1] != "-"
    ensures SoundWorld(Register(h, w, args, env).0)
  {
    if |args| == 3 {
      ExecuteKeepsSound(h, w, Command.CreateUser(args[1], args[2], env.salt));
    }
  }

  lemma SignInKeepsSound(h: Digest, w: World, args: seq<string>, ip: string, env: Env)
    requires HexDigest(h) && SoundWorld(w) && Words(args) && Word(ip)
    ensures SoundWorld(SignIn(h, w, args, ip, env).0)
  {
    if |args| == 4 {
      ExecuteKeepsSound(h, w, Command.Login(args[1], args[2], ip, args[3]));
    }
  }

  lemma SignOutKeepsSound(h: Digest, w: World, token: string)
    requires HexDigest(h) && SoundWorld(w)
    ensures SoundWorld(SignOut(h, w, token).0)
  {
    var w' := w.(sessions := w.sessions - {token});
    assert SoundWorld(w');
    if token in w.sessions {
      ExecuteKeepsSound(h, w', Command.Logout(w.sessions[token].user));
    }
  }

  lemma ServeKeepsSound(h: Digest, w: World, ip: string, raw: string, env: Env)
    requires HexDigest(h) && SoundWorld(w) && Tokens(raw) != [] && SoundInput(Message(0, ip, raw, env))
    ensures SoundWorld(Serve(h, w, Tokens(raw), ip, raw, env).0)
  {
    var args := Tokens(raw);
    ScanWords("", raw);
    if args[0] == "STATE" {
      ImportKeepsSound(w, raw);
    } else if args[0] == "create_user" {
      RegisterKeepsSound(h, w, args, env);
    } else if args[0] == "login" {
      SignInKeepsSound(h, w, args, ip, env);
    } else if args[0] == "logout" && |args| >= 2 {
      SignOutKeepsSound(h, w, args[1]);
    } else if args[0] != "SYNC_REQ" && |args| >= 2 {
      SessionKeepsSound(h, w, args, env);
    }
  }

  lemma DropKeepsSound(h: Digest, w: World, c: Conn)
    requires HexDigest(h) && SoundWorld(w)
    ensures SoundWorld(Dropped(h, w, c))
  {
    var w' := if c.token != "" then w.(sessions := w.sessions - {c.token}) else w;
    assert SoundWorld(w');
    ExecuteKeepsSound(h, w', Command.Disconnect(c.user));
  }

  // ---------- Runs ----------

  ghost predicate StepAt(h: Digest, run: seq<Service>, xs: seq<Input>, i: nat)
    requires |run| == |xs| + 1 && i < |xs|
  {
    run[i + 1] == NextOf(h, run[i], xs[i])
  }

  /** A run from any state without sessions or connections: freshly started, empty or after a load. */
  ghost predicate ServiceRun(h: Digest, run: seq<Service>, xs: seq<Input>) {
    && |run| == |xs| + 1
    && run[0].world.sessions == map[] && run[0].conns == map[]
    && forall i: nat | i < |xs| :: StepAt(h, run, xs, i)
  }

  /**
   * Over a run of raw messages, whatever they are as long as state messages carry sound records and nobody
   * registers as "-", the state stays sound and whoever is connected has an address.
   */
  lemma {:induction false} RunKeepsSound(h: Digest, run: seq<Service>, xs: seq<Input>, i: nat)
    requires HexDigest(h) && ServiceRun(h, run, xs) && i < |run|
    requires SoundWorld(run[0].world) && forall j :: 0 <= j < |xs| ==> SoundInput(xs[j])
    ensures SoundWorld(run[i].world)
  {
    if i > 0 {
      RunKeepsSound(h, run, xs, i - 1);
      assert StepAt(h, run, xs, i - 1);
      NextKeepsSound(h, run[i - 1], xs[i - 1]);
    }
  }

  lemma NextKeepsSound(h: Digest, s: Service, x: Input)
    requires HexDigest(h) && SoundWorld(s.world) && SoundInput(x)
    ensures SoundWorld(NextOf(h, s, x).world)
  {
    match x
    case Drop(c) => DropKeepsSound(h, s.world, ConnOf(s, c));
    case Message(c, ip, raw, env) =>
      assert SoundInput(Message(0, ip, raw, env));
      if Tokens(raw) != [] {
        ServeKeepsSound(h, s.world, ip, raw, env);
      }
  }

  /**
   * In a sound state, what a download request is answered is read by the downloader as the file's
   * metadata and exactly its connected seeders, unless the file is named like a reply keyword.
   */
  lemma DownloadIsReadable(s: State, args: seq<string>, text: string) returns (contacts: seq<Reply.Contact>)
    requires StateInv(s) && Reply.Addressed(s.peers) && Words(args) && DownloadText(s, args, text)
    ensures var f := s.files[FilesKey(args[2], args[3])];
      Reply.Parse(text) == Some(Reply.Plan(f.size, f.fullhash, f.pieceHashes, contacts))
      <==> !Reply.Keyword(args[3]) || (args[3] == "HASH" && f.size == 0)
    ensures forall c :: c in contacts <==>
      && c.name in s.files[FilesKey(args[2], args[3])].seeders
      && s.peers[c.name].connected && c.ip == s.peers[c.name].hostip && c.port == s.peers[c.name].hostport
  {
    var k := FilesKey(args[2], args[3]);
    var order :| FileReply(s, args, order, text);
    assert PrintableFile(s.files[k]) && FileOk(s.peers.Keys, s.files[k]);
    EnumerationWords(order, s.files[k].seeders);
    Reply.ReplyRoundTripIff(args[3], s.files[k], s.peers, order);
    contacts := Reply.Contacts(s.peers, order);
    forall c
      ensures c in contacts <==>
        && c.name in s.files[k].seeders
        && s.peers[c.name].connected && c.ip == s.peers[c.name].hostip && c.port == s.peers[c.name].hostport
    {
      Reply.ContactsExact(s.peers, order, c);
      assert c.name in order <==> c.name in SetOf(order);
    }
  }

  // ---------- Sessions and reachable users ----------

  /** Whoever has a session is connected, which is what downloaders are told. */
  ghost predicate SessionsConnected(w: World) {
    forall t :: t in w.sessions ==> t != "" && Reachable(w.state, w.sessions[t].user)
  }

  predicate Reachable(s: State, user: string) {
    user != "" && user in s.peers && s.peers[user].connected
  }

  /** The session a step ends, and the user it signs off with it. */
  function Ended(s: Service, x: Input): Conn {
    match x
    case Drop(c) => ConnOf(s, c)
    case Message(_, _, raw, _) =>
      var args := Tokens(raw);
      if |args| >= 2 && args[0] == "logout" && args[1] in s.world.sessions then
        Conn(s.world.sessions[args[1]].user, args[1])
      else NOBODY
  }

  lemma ExecuteKeepsConnected(h: Digest, w: World, c: Command)
    requires SessionsConnected(w) && (c.UploadFile? ==> c.numPieces >= 0)
    requires !c.Logout? && !c.Disconnect?
    ensures SessionsConnected(Execute(h, w, c).0)
  {
  }

  lemma SignOffConnectedIff(h: Digest, w: World, user: string, token: string, c: Command)
    requires SessionsConnected(w) && (c == Command.Logout(user) || c == Command.Disconnect(user))
    ensures SessionsConnected(Execute(h, w.(sessions := w.sessions - {token}), c).0) <==>
            forall t :: t in w.sessions && t != token ==> w.sessions[t].user != user
  {
    var w' := Execute(h, w.(sessions := w.sessions - {token}), c).0;
    if SessionsConnected(w') {
      forall t | t in w.sessions && t != token ensures w.sessions[t].user != user {
        assert Reachable(w'.state, w'.sessions[t].user);
      }
    }
  }

  lemma SignInConnected(h: Digest, w: World, args: seq<string>, ip: string, env: Env)
    requires SessionsConnected(w) && |args| >= 2 && args[1] != ""
    ensures SessionsConnected(SignIn(h, w, args, ip, env).0)
  {
  }

  lemma SessionKeepsConnected(h: Digest, w: World, args: seq<string>, env: Env)
    requires SessionsConnected(w) && |args| >= 2
    ensures SessionsConnected(WithSession(h, w, args, env).0)
  {
    var w' := w.(sessions := AfterLookup(w.sessions, args[1], env.now));
    var v := Valid(w.sessions, args[1], env.now);
    if v.Some? && Changes(args[0]) && CommandFor(args, v.value.user, env.heir).Some? {
      ExecuteKeepsConnected(h, w', CommandFor(args, v.value.user, env.heir).value);
    }
  }

  lemma RegisterKeepsConnected(h: Digest, w: World, args: seq<string>, env: Env)
    requires SessionsConnected(w) && args != []
    ensures SessionsConnected(Register(h, w, args, env).0)
  {
    if |args| == 3 {
      ExecuteKeepsConnected(h, w, Command.CreateUser(args[1], args[2], env.salt));
    }
  }

  lemma ImportKeepsConnected(w: World, raw: string)
    requires SessionsConnected(w)
    ensures SessionsConnected(Imported(w, raw).0)
  {
  }

  /** Steps that end no session keep every session's user connected. */
  lemma ServeKeepsConnected(h: Digest, w: World, ip: string, raw: string, env: Env)
    requires SessionsConnected(w) && Tokens(raw) != []
    requires Tokens(raw)[0] != "logout"
    ensures SessionsConnected(Serve(h, w, Tokens(raw), ip, raw, env).0)
  {
    var args := Tokens(raw);
    ScanWords("", raw);
    if args[0] == "STATE" {
      ImportKeepsConnected(w, raw);
    } else if args[0] == "create_user" {
      RegisterKeepsConnected(h, w, args, env);
    } else if args[0] == "login" {
      if |args| >= 2 {
        SignInConnected(h, w, args, ip, env);
      }
    } else if args[0] != "SYNC_REQ" && |args| >= 2 {
      SessionKeepsConnected(h, w, args, env);
    }
  }

  /**
   * "Whoever has a session is connected" is kept by a step exactly when the step does not sign off
   * a user who holds another session, as one logged in over two connections does.
   */
  lemma SessionsConnectedIff(h: Digest, s: Service, x: Input)
    requires SessionsConnected(s.world)
    ensures SessionsConnected(NextOf(h, s, x).world) <==>
            var e := Ended(s, x);
            forall t :: t in s.world.sessions && t != e.token ==> s.world.sessions[t].user != e.user
  {
    var w := s.world;
    match x
    case Drop(c) =>
      var k := ConnOf(s, c);
      SignOffConnectedIff(h, w, k.user, k.token, Command.Disconnect(k.user));
      if k.token == "" {
        assert w.sessions - {""} == w.sessions;
      }
    case Message(_, ip, raw, env) =>
      var args := Tokens(raw);
      if args != [] && args[0] == "logout" {
        if |args| >= 2 && args[1] in w.sessions {
          SignOffConnectedIff(h, w, w.sessions[args[1]].user, args[1], Command.Logout(w.sessions[args[1]].user));
        }
      } else if args != [] {
        ServeKeepsConnected(h, w, ip, raw, env);
      }
  }

  /** Two connections of one user: closing the first leaves the second with a session but unreachable. */
  lemma TwoConnectionsOneUser(h: Digest, p: Peer)
    requires p.connected
    ensures var one, two := Session("ann", "ip", "1", TTL), Session("ann", "ip", "2", TTL);
      var w := World(EMPTY.(peers := map["ann" := p]), 0, map["t1" := one, "t2" := two]);
      var w' := Dropped(h, w, Conn("ann", "t1"));
      SessionsConnected(w) && Valid(w'.sessions, "t2", 0) == Some(two) && !Reachable(w'.state, "ann")
  {
    assert Session("ann", "ip", "2", TTL).expires > 0;
  }

  // ---------- The version ----------

  ghost predicate Later(w: World, w': World) {
    && w.version <= w'.version
    && (w.version == w'.version ==> SameButEmpty(w.state, w'.state))
  }

  /** A state message is not cut short by a bad line. */
  ghost predicate Whole(x: Input) {
    x.Message? && Tokens(x.raw) != [] && Tokens(x.raw)[0] == "STATE" && StatePayload(x.raw).Some? ==>
      ParseText(StatePayload(x.raw).value).ok
  }

  lemma ExecuteLater(h: Digest, w: World, c: Command)
    requires c.UploadFile? ==> c.numPieces >= 0
    ensures Later(w, Execute(h, w, c).0)
  {
    RejectedChangesNothing(h, w.state, c);
  }

  lemma ReceiveLater(w: World, payload: string)
    requires ParseText(payload).ok
    ensures Later(w, MergeIn(w, payload).0)
  {
    if Covers(w.state, Merging.Payload(payload)) {
      CoveredJoin(w.state, Merging.Payload(payload));
    }
  }

  lemma SessionLater(h: Digest, w: World, args: seq<string>, env: Env)
    requires |args| >= 2
    ensures Later(w, WithSession(h, w, args, env).0)
  {
    var w' := w.(sessions := AfterLookup(w.sessions, args[1], env.now));
    match Valid(w.sessions, args[1], env.now)
    case None =>
    case Some(s) =>
      if Changes(args[0]) && CommandFor(args, s.user, env.heir).Some? {
        ExecuteLater(h, w', CommandFor(args, s.user, env.heir).value);
      }
  }

  lemma ServeLater(h: Digest, w: World, ip: string, raw: string, env: Env)
    requires Tokens(raw) != [] && Whole(Message(0, ip, raw, env))
    ensures Later(w, Serve(h, w, Tokens(raw), ip, raw, env).0)
  {
    var args := Tokens(raw);
    if args[0] == "SYNC_REQ" {
    } else if args[0] == "STATE" {
      if StatePayload(raw).Some? {
        ReceiveLater(w, StatePayload(raw).value);
      }
    } else if args[0] == "create_user" {
      if |args| == 3 {
        ExecuteLater(h, w, Command.CreateUser(args[1], args[2], env.salt));
      }
    } else if args[0] == "login" {
      if |args| == 4 {
        ExecuteLater(h, w, Command.Login(args[1], args[2], ip, args[3]));
      }
    } else if |args| >= 2 {
      if args[0] == "logout" {
        if args[1] in w.sessions {
          ExecuteLater(h, w.(sessions := w.sessions - {args[1]}), Command.Logout(w.sessions[args[1]].user));
        }
      } else {
        SessionLater(h, w, args, env);
      }
    }
  }

  /** A step that leaves the version alone leaves the state alone, unless a payload is cut short. */
  lemma StepVersion(h: Digest, s: Service, x: Input)
    requires Whole(x)
    ensures Later(s.world, NextOf(h, s, x).world)
  {
    match x
    case Drop(c) =>
      var k := ConnOf(s, c);
      var w' := if k.token != "" then s.world.(sessions := s.world.sessions - {k.token}) else s.world;
      ExecuteLater(h, w', Command.Disconnect(k.user));
    case Message(c, ip, raw, env) =>
      if Tokens(raw) != [] {
        assert Whole(Message(0, ip, raw, env));
        ServeLater(h, s.world, ip, raw, env);
      }
  }

  /** Two moments with the same version saw the same state, whatever happened in between. */
  lemma {:induction false} VersionSound(h: Digest, run: seq<Service>, xs: seq<Input>, i: nat, j: nat)
    requires ServiceRun(h, run, xs) && i <= j < |run|
    requires forall k :: 0 <= k < |xs| ==> Whole(xs[k])
    ensures Later(run[i].world, run[j].world)
  {
    if i < j {
      VersionSound(h, run, xs, i, j - 1);
      assert StepAt(h, run, xs, j - 1);
      StepVersion(h, run[j - 1], xs[j - 1]);
    }
  }
}
