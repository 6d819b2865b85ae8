/** One command at a time: from the tokens of a message, through the session, to the state. */
module Dispatch {
  import opened Text
  import opened States
  import opened Records
  import opened Commands
  import opened Pieces
  import opened Sessions
  import Merging
  import Tracker
  import Reply
  import opened Listings

  /**
   * What a command meets besides the state: the clock, the entropy source ("" when it failed), and
   * the orders the hash tables happen to have (the heir of a group, the text a map is printed as).
   */
  datatype Env = Env(now: Time, salt: string, token: string, heir: string, printed: string)

  datatype Answer =
    | StateText(text: string)
    | EmptyState
    | MergeDone(ok: bool)
    | BadArguments
    | AuthRequired
    | Done(ok: bool)
    | SignedIn(token: string)
    | NoEntropy
    | FileText(ok: bool, text: string)
    | ListText(ok: bool, text: string)
    | Unrecognized

  /** The tracker: its four maps and version, and its sessions. */
  datatype World = World(state: State, version: nat, sessions: Table)

  /** Everything after the first blank. */
  function StatePayload(raw: string): Option<string> {
    if raw == "" then None else if raw[0] == ' ' then Some(raw[1..]) else StatePayload(raw[1..])
  }

  function ListenPort(s: string): bool {
    match ParseInt(s)
    case Some(p) => 0 < p <= 65535
    case None => false
  }

  /** The size and piece count of an upload, when they are numbers, agree, and the hashes match them. */
  function UploadCounts(args: seq<string>): Option<(int, int)>
    requires |args| >= 7
  {
    match ParseLL(args[4])
    case None => None
    case Some(size) =>
      match ParseInt(args[6])
      case None => None
      case Some(n) =>
        if size < 0 || n < 0 || n != PieceCount(size) || |args| != n + 7 then None else Some((size, n))
  }

  /** The command a message with a valid session asks for, on behalf of the session's user. */
  function CommandFor(args: seq<string>, user: string, heir: string): Option<Command>
    requires |args| >= 2
  {
    var n := |args|;
    match args[0]
    case "create_group" => if n != 3 then None else Some(Command.CreateGroup(args[2], user))
    case "join_group" => if n != 3 then None else Some(Command.JoinGroup(args[2], user))
    case "leave_group" => if n != 3 then None else Some(Command.LeaveGroup(args[2], user, heir))
    case "accept_request" => if n != 4 then None else Some(Command.AcceptRequest(args[2], args[3], user))
    case "reject_request" => if n != 4 then None else Some(Command.RejectRequest(args[2], args[3], user))
    case "upload_file" =>
      if n < 7 then None
      else (
        match UploadCounts(args)
        case None => None
        case Some((size, count)) =>
          Some(Command.UploadFile(args[2], args[3], user, size, args[5], count, args[7..])))
    case "file_downloaded" => if n != 4 then None else Some(Command.FileDownloaded(args[2], args[3], user))
    case "stop_share" => if n != 4 then None else Some(Command.StopShare(args[2], args[3], user))
    case _ => None
  }

  predicate OnGroup(verb: string) {
    verb in {"create_group", "join_group", "leave_group", "accept_request", "reject_request"}
  }

  predicate Changes(verb: string) {
    OnGroup(verb) || verb in {"upload_file", "file_downloaded", "stop_share"}
  }

  /** The answer to a command that only reads. */
  function ReadAnswer(s: State, args: seq<string>, user: string, printed: string): Answer
    requires |args| >= 2
  {
    if args[0] == "list_groups" then ListText(true, printed)
    else if args[0] == "list_requests" then
      if |args| != 3 then BadArguments else ListText(MaySeeRequests(s, args[2], user), printed)
    else if args[0] == "list_files" then
      if |args| != 3 then BadArguments else ListText(MaySeeFiles(s, args[2], user), printed)
    else if args[0] == "download_file" then
      if |args| != 4 then BadArguments else FileText(MayDownload(s, args[2], args[3], user), printed)
    else Unrecognized
  }

  ghost function Execute(h: Digest, w: World, c: Command): (World, Answer)
    requires c.UploadFile? ==> c.numPieces >= 0
  {
    var o := Exec(h, w.state, c);
    (World(o.state, w.version + (if o.ok then 1 else 0), w.sessions), Done(o.ok))
  }

  ghost function SignIn(h: Digest, w: World, args: seq<string>, ip: string, env: Env): (World, Answer) {
    if |args| != 4 || !ListenPort(args[3]) then (w, BadArguments)
    else
      var (w', a) := Execute(h, w, Command.Login(args[1], args[2], ip, args[3]));
      if a == Done(false) then (w', a)
      else if env.token == "" then (w', NoEntropy)
      else (w'.(sessions := w.sessions[env.token := Session(args[1], ip, args[3], env.now + TTL)]), SignedIn(env.token))
  }

  ghost function SignOut(h: Digest, w: World, token: string): (World, Answer) {
    var user := if token in w.sessions then w.sessions[token].user else "";
    var w' := w.(sessions := w.sessions - {token});
    if user == "" then (w', AuthRequired) else Execute(h, w', Command.Logout(user))
  }

  ghost function WithSession(h: Digest, w: World, args: seq<string>, env: Env): (World, Answer)
    requires |args| >= 2
  {
    var w' := w.(sessions := AfterLookup(w.sessions, args[1], env.now));
    match Valid(w.sessions, args[1], env.now)
    case None => (w', AuthRequired)
    case Some(s) =>
      if Changes(args[0]) then Commanded(h, w', args, s.user, env)
      else (w', ReadAnswer(w.state, args, s.user, env.printed))
  }

  ghost function Commanded(h: Digest, w: World, args: seq<string>, user: string, env: Env): (World, Answer)
    requires |args| >= 2
  {
    match CommandFor(args, user, env.heir)
    case None => (w, BadArguments)
    case Some(c) => Execute(h, w, c)
  }

  ghost function MergeIn(w: World, payload: string): (World, Answer) {
    (World(Merging.Merged(w.state, payload), Merging.VersionAfter(w.state, w.version, payload), w.sessions),
     MergeDone(ParseText(payload).ok))
  }

  ghost function Imported(w: World, raw: string): (World, Answer) {
    match StatePayload(raw)
    case None => (w, EmptyState)
    case Some(payload) => MergeIn(w, payload)
  }

  ghost function Register(h: Digest, w: World, args: seq<string>, env: Env): (World, Answer)
    requires args != []
  {
    if |args| != 3 then (w, BadArguments) else Execute(h, w, Command.CreateUser(args[1], args[2], env.salt))
  }

  /** What one message does, and how it is answered. */
  ghost function Serve(h: Digest, w: World, args: seq<string>, ip: string, raw: string, env: Env): (World, Answer)
    requires args != []
  {
    if args[0] == "SYNC_REQ" then (w, StateText(env.printed))
    else if args[0] == "STATE" then Imported(w, raw)
    else if args[0] == "create_user" then Register(h, w, args, env)
    else if args[0] == "login" then SignIn(h, w, args, ip, env)
    else if |args| < 2 then (w, AuthRequired)
    else if args[0] == "logout" then SignOut(h, w, args[1])
    else WithSession(h, w, args, env)
  }

  /** A reply to a download request, with the seeders in some order. */
  ghost predicate DownloadText(s: State, args: seq<string>, text: string) {
    && |args| == 4 && GroupHasFile(s, args[2], args[3]) && FilesKey(args[2], args[3]) in s.files
    && exists order :: FileReply(s, args, order, text)
  }

  ghost predicate FileReply(s: State, args: seq<string>, order: seq<string>, text: string)
    requires |args| == 4 && FilesKey(args[2], args[3]) in s.files
  {
    var f := s.files[FilesKey(args[2], args[3])];
    Enumerates(order, f.seeders) && text == Reply.ReplyText(args[3], f, s.peers, order)
  }

  /** A listing that was asked for, in some order. */
  ghost predicate ListingText(s: State, args: seq<string>, text: string)
    requires |args| >= 2
  {
    exists order :: ListingIn(s, args, order, text)
  }

  ghost predicate ListingIn(s: State, args: seq<string>, order: seq<string>, text: string)
    requires |args| >= 2
  {
    if args[0] == "list_groups" then Enumerates(order, s.groups.Keys) && text == GroupsText(order)
    else if args[0] == "list_requests" then
      |args| == 3 && args[2] in s.groups
      && Enumerates(order, s.groups[args[2]].applicants) && text == RequestsText(args[2], order)
    else |args| == 3 && Enumerates(order, NamesIn(s, args[2])) && text == FilesText(s, args[2], order)
  }

  // ---------- The dispatcher itself ----------

  class Server {
    const state: Tracker.TrackerState
    const sessions: SessionManager

    constructor (digest: Digest)
      ensures fresh(state) && fresh(sessions)
      ensures Value() == World(EMPTY, 0, map[]) && state.digest == digest
    {
      state := new Tracker.TrackerState(digest);
      sessions := new SessionManager();
    }

    ghost function Value(): World
      reads state, sessions
    {
      World(state.Abs(), state.version, sessions.sessions)
    }

    /** A message is carried out as specified, and the texts sent are printouts of the state. */
    method Dispatch(args: seq<string>, ip: string, raw: string, now: Time, salt: string, token: string)
      returns (answer: Answer, ghost env: Env)
      requires args != []
      modifies state, sessions
      ensures env.now == now && env.salt == salt && env.token == token
      ensures (Value(), answer) == Serve(state.digest, old(Value()), args, ip, raw, env)
      ensures answer.StateText? ==> PrintedAs(state.Abs(), answer.text)
      ensures answer.FileText? && answer.ok ==> DownloadText(state.Abs(), args, answer.text)
      ensures answer.ListText? && answer.ok ==> |args| >= 2 && ListingText(state.Abs(), args, answer.text)
    {
      env := Env(now, salt, token, "", "");
      if args[0] == "SYNC_REQ" {
        var text := state.Serialize();
        answer, env := StateText(text), env.(printed := text);
      } else if args[0] == "STATE" {
        answer := Import(raw);
      } else if args[0] == "create_user" {
        answer := SignUp(args, salt, env);
      } else if args[0] == "login" {
        answer := LogIn(args, ip, now, token, env);
      } else if |args| < 2 {
        answer := AuthRequired;
      } else if args[0] == "logout" {
        answer := LogOut(args[1]);
      } else {
        answer, env := InSession(args, now, env);
      }
    }

    /** A state message; what follows the verb is merged. */
    method Import(raw: string) returns (answer: Answer)
      modifies state
      ensures (Value(), answer) == Imported(old(Value()), raw)
    {
      var payload := StatePayload(raw);
      if payload.None? {
        return EmptyState;
      }
      var ok := state.MergeFrom(payload.value);
      answer := MergeDone(ok);
    }

    method SignUp(args: seq<string>, salt: string, ghost env: Env) returns (answer: Answer)
      requires args != [] && env.salt == salt
      modifies state
      ensures (Value(), answer) == Register(state.digest, old(Value()), args, env)
    {
      if |args| != 3 {
        return BadArguments;
      }
      var ok := state.CreateUser(args[1], args[2], salt);
      answer := Done(ok);
    }

    method LogOut(token: string) returns (answer: Answer)
      modifies state, sessions
      ensures (Value(), answer) == SignOut(state.digest, old(Value()), token)
    {
      var user := sessions.Destroy(token);
      if user == "" {
        return AuthRequired;
      }
      var ok := state.Logout(user);
      answer := Done(ok);
    }

    /** Who is asking comes from the token alone. */
    method InSession(args: seq<string>, now: Time, ghost env0: Env) returns (answer: Answer, ghost env: Env)
      requires |args| >= 2 && env0.now == now
      modifies state, sessions
      ensures env.now == env0.now && env.salt == env0.salt && env.token == env0.token
      ensures (Value(), answer) == WithSession(state.digest, old(Value()), args, env)
      ensures !answer.StateText?
      ensures answer.FileText? && answer.ok ==> DownloadText(state.Abs(), args, answer.text)
      ensures answer.ListText? && answer.ok ==> |args| >= 2 && ListingText(state.Abs(), args, answer.text)
    {
      env := env0;
      var user := sessions.UsernameFor(args[1], now);
      if user.None? {
        return AuthRequired, env;
      }
      answer, env := Privileged(args, user.value, env);
    }

    method LogIn(args: seq<string>, ip: string, now: Time, token: string, ghost env: Env) returns (answer: Answer)
      requires args != [] && args[0] == "login" && env.now == now && env.token == token
      modifies state, sessions
      ensures (Value(), answer) == SignIn(state.digest, old(Value()), args, ip, env)
    {
      if |args| != 4 {
        return BadArguments;
      }
      var port := ParseInt(args[3]);
      if port.None? || port.value <= 0 || port.value > 65535 {
        return BadArguments;
      }
      var ok := state.Login(args[1], args[2], ip, args[3]);
      if !ok {
        return Done(false);
      }
      var t := sessions.Create(args[1], ip, args[3], token, now);
      answer := if t == "" then NoEntropy else SignedIn(t);
    }

    /** What a message with a valid session does. */
    method Privileged(args: seq<string>, user: string, ghost env0: Env) returns (answer: Answer, ghost env: Env)
      requires |args| >= 2
      modifies state
      ensures env.now == env0.now && env.salt == env0.salt && env.token == env0.token
      ensures !Changes(args[0]) ==> Value() == old(Value())
      ensures !Changes(args[0]) ==> answer == ReadAnswer(state.Abs(), args, user, env.printed)
      ensures Changes(args[0]) ==> (Value(), answer) == Commanded(state.digest, old(Value()), args, user, env)
      ensures answer.FileText? && answer.ok ==> DownloadText(state.Abs(), args, answer.text)
      ensures answer.ListText? && answer.ok ==> |args| >= 2 && ListingText(state.Abs(), args, answer.text)
    {
      env := env0;
      var n := |args|;
      match args[0] {
        case "upload_file" =>
          answer := Upload(args, user, env);
        case "file_downloaded" =>
          if n != 4 { return BadArguments, env; }
          var ok := state.FileDownloaded(args[2], args[3], user);
          answer := Done(ok);
        case "stop_share" =>
          if n != 4 { return BadArguments, env; }
          var ok := state.StopShare(args[2], args[3], user);
          answer := Done(ok);
        case _ =>
          if OnGroup(args[0]) {
            answer, env := Membership(args, user, env);
          } else {
            answer, env := Reading(args, user, env);
          }
      }
    }

    /** The commands about groups and who is in them. */
    method Membership(args: seq<string>, user: string, ghost env0: Env) returns (answer: Answer, ghost env: Env)
      requires |args| >= 2 && OnGroup(args[0])
      modifies state
      ensures env.now == env0.now && env.salt == env0.salt && env.token == env0.token
      ensures (Value(), answer) == Commanded(state.digest, old(Value()), args, user, env)
    {
      env := env0;
      var n := |args|;
      match args[0] {
        case "create_group" =>
          if n != 3 { return BadArguments, env; }
          var ok := state.CreateGroup(args[2], user);
          answer := Done(ok);
        case "join_group" =>
          if n != 3 { return BadArguments, env; }
          var ok := state.JoinGroup(args[2], user);
          answer := Done(ok);
        case "leave_group" =>
          if n != 3 { return BadArguments, env; }
          var ok;
          ghost var heir;
          ok, heir := state.LeaveGroup(args[2], user);
          answer, env := Done(ok), env.(heir := heir);
        case "accept_request" =>
          if n != 4 { return BadArguments, env; }
          var ok := state.AcceptRequest(args[2], args[3], user);
          answer := Done(ok);
        case "reject_request" =>
          if n != 4 { return BadArguments, env; }
          var ok := state.RejectRequest(args[2], args[3], user);
          answer := Done(ok);
      }
    }

    /** The commands that only read, and words that are no command. */
    method Reading(args: seq<string>, user: string, ghost env0: Env) returns (answer: Answer, ghost env: Env)
      requires |args| >= 2 && !Changes(args[0])
      ensures env.now == env0.now && env.salt == env0.salt && env.token == env0.token
      ensures answer == ReadAnswer(state.Abs(), args, user, env.printed)
      ensures answer.FileText? && answer.ok ==> DownloadText(state.Abs(), args, answer.text)
      ensures answer.ListText? && answer.ok ==> |args| >= 2 && ListingText(state.Abs(), args, answer.text)
    {
      env := env0;
      var n := |args|;
      match args[0] {
        case "download_file" =>
          if n != 4 { return BadArguments, env; }
          var ok, text;
          ghost var order;
          ok, text, order := state.DownloadFile(args[2], args[3], user);
          answer, env := FileText(ok, text), env.(printed := text);
          assert ok ==> FileReply(state.Abs(), args, order, text);
        case "list_groups" =>
          answer, env := Groups(args, env);
        case "list_requests" =>
          if n != 3 { return BadArguments, env; }
          var ok, text;
          ghost var order;
          ok, text, order := state.ListRequests(args[2], user);
          answer, env := ListText(ok, text), env.(printed := text);
          assert ok ==> ListingIn(state.Abs(), args, order, text);
        case "list_files" =>
          if n != 3 { return BadArguments, env; }
          var ok, text;
          ghost var order;
          ok, text, order := state.ListFiles(args[2], user);
          answer, env := ListText(ok, text), env.(printed := text);
          assert ok ==> ListingIn(state.Abs(), args, order, text);
        case _ =>
          answer := Unrecognized;
      }
    }

    method Groups(args: seq<string>, ghost env0: Env) returns (answer: Answer, ghost env: Env)
      requires |args| >= 2 && args[0] == "list_groups"
      ensures env.now == env0.now && env.salt == env0.salt && env.token == env0.token
      ensures answer == ListText(true, env.printed) && ListingText(state.Abs(), args, env.printed)
    {
      var text;
      ghost var order;
      text, order := state.ListGroups();
      answer, env := ListText(true, text), env0.(printed := text);
      assert ListingIn(state.Abs(), args, order, text);
    }

    /** Numbers, their agreement, and the hash list are checked before anything is stored. */
    method Upload(args: seq<string>, user: string, ghost env: Env) returns (answer: Answer)
      requires |args| >= 2 && args[0] == "upload_file"
      modifies state
      ensures (Value(), answer) == Commanded(state.digest, old(Value()), args, user, env)
    {
      if |args| < 7 {
        return BadArguments;
      }
      var fsize, count := ParseLL(args[4]), ParseInt(args[6]);
      if fsize.None? || count.None? {
        return BadArguments;
      }
      if fsize.value < 0 || count.value < 0 {
        return BadArguments;
      }
      var expected := (fsize.value + PIECE_SIZE - 1) / PIECE_SIZE;
      if count.value != expected || |args| != count.value + 7 {
        return BadArguments;
      }
      var pieceHashes := [];
      var i := 7;
      while i < |args|
        invariant 7 <= i <= |args| && pieceHashes == args[7..i]
      {
        pieceHashes := pieceHashes + [args[i]];
        i := i + 1;
      }
      assert args[7..i] == args[7..];
      var ok := state.UploadFile(args[2], args[3], user, fsize.value, args[5], count.value, pieceHashes);
      answer := Done(ok);
    }
  }
}
