/** What each message of a session does, from its raw text to the facts afterwards. */
module Messages {
  import opened Text
  import opened States
  import opened Records
  import opened Commands
  import opened Effects
  import opened Sessions
  import opened Dispatch
  import opened Pieces

  /** The token is a session of `u` and has not expired. */
  predicate Speaks(w: World, token: string, now: Time, u: string) {
    token != "" && token in w.sessions && w.sessions[token].user == u && now < w.sessions[token].expires
  }

  /** The message made of these words, and what comes of it. */
  ghost function Sent(h: Digest, w: World, ts: seq<string>, ip: string, env: Env): (World, Answer)
    requires Words(ts) && ts != []
  {
    TokensOfSpaced(ts);
    Serve(h, w, Tokens(Spaced(ts)), ip, Spaced(ts), env)
  }

  /** The verbs that need no session. */
  predicate Open(verb: string) {
    verb in {"SYNC_REQ", "STATE", "create_user", "login", "logout"}
  }

  lemma SentIs(h: Digest, w: World, ts: seq<string>, ip: string, env: Env)
    requires Words(ts) && ts != []
    ensures Sent(h, w, ts, ip, env) == Serve(h, w, ts, ip, Spaced(ts), env)
  {
    TokensOfSpaced(ts);
  }

  lemma SessionStays(w: World, token: string, now: Time, u: string)
    requires Speaks(w, token, now, u)
    ensures Valid(w.sessions, token, now) == Some(w.sessions[token])
    ensures w.(sessions := AfterLookup(w.sessions, token, now)) == w
  {
  }

  /** A session's message that amounts to a command runs just that command. */
  lemma Runs(h: Digest, w: World, ts: seq<string>, ip: string, env: Env, u: string, c: Command)
    requires Words(ts) && |ts| >= 2 && !Open(ts[0]) && Changes(ts[0]) && Speaks(w, ts[1], env.now, u)
    requires CommandFor(ts, u, env.heir) == Some(c) && (c.UploadFile? ==> c.numPieces >= 0)
    ensures var (w', a) := Sent(h, w, ts, ip, env);
      && a == Done(Allowed(h, w.state, c)) && w'.sessions == w.sessions
      && w'.state == Exec(h, w.state, c).state
      && w'.version == w.version + if a == Done(true) then 1 else 0
  {
    SentIs(h, w, ts, ip, env);
    SessionStays(w, ts[1], env.now, u);
    AcceptedIff(h, w.state, c);
  }

  /** Only this group's entry differs. */
  ghost predicate OnlyGroup(s: State, t: State, g: string) {
    && t.peers == s.peers && t.files == s.files && t.index == s.index
    && forall x :: x != g ==> (x in t.groups <==> x in s.groups) && (x in s.groups ==> t.groups[x] == s.groups[x])
  }

  /** The members of a group before and after. */
  ghost predicate MembersBecome(s: State, t: State, g: string, joined: set<string>, left: set<string>) {
    forall x :: Member(t, g, x) <==> x in joined || (Member(s, g, x) && x !in left)
  }

  ghost predicate ApplicantsBecome(s: State, t: State, g: string, joined: set<string>, left: set<string>) {
    forall x :: Applicant(t, g, x) <==> x in joined || (Applicant(s, g, x) && x !in left)
  }

  lemma GroupRuns(h: Digest, s: State, c: Command)
    requires OnGroups(c) && Exec(h, s, c).ok
    ensures OnlyGroup(s, Exec(h, s, c).state, c.gid)
    ensures c.gid in Exec(h, s, c).state.groups
  {
    GroupCommandFrame(h, s, c);
  }

  lemma MembersAfterAll(h: Digest, s: State, c: Command, g: string)
    requires (c.UploadFile? ==> c.numPieces >= 0) && Exec(h, s, c).ok
    ensures forall x :: Member(Exec(h, s, c).state, g, x) <==>
            Admits(c, g, x) || (Member(s, g, x) && !Dismisses(c, g, x))
    ensures forall x :: Applicant(Exec(h, s, c).state, g, x) <==>
            (c.JoinGroup? && c.gid == g && c.user == x) || (Applicant(s, g, x) && !Decides(c, g, x))
  {
    forall x
      ensures Member(Exec(h, s, c).state, g, x) <==> Admits(c, g, x) || (Member(s, g, x) && !Dismisses(c, g, x))
    {
      MembersAfter(h, s, c, g, x);
    }
    forall x
      ensures Applicant(Exec(h, s, c).state, g, x) <==>
              (c.JoinGroup? && c.gid == g && c.user == x) || (Applicant(s, g, x) && !Decides(c, g, x))
    {
      ApplicantsAfter(h, s, c, g, x);
    }
  }

  /** create_group: the session's user founds a group nobody has, and is its owner and only member. */
  lemma CreateGroupMessage(h: Digest, w: World, token: string, g: string, u: string, ip: string, env: Env)
    requires Words(["create_group", token, g]) && Speaks(w, token, env.now, u)
    ensures var (w', a) := Sent(h, w, ["create_group", token, g], ip, env);
      && w'.sessions == w.sessions
      && a == Done(Registered(w.state, u) && !Has(w.state, GroupAtom(g)))
      && if a == Done(true)
         then OnlyGroup(w.state, w'.state, g) && Owns(w'.state, g, u)
              && (forall x :: Member(w'.state, g, x) <==> x == u) && (forall x :: !Applicant(w'.state, g, x))
         else w'.state == w.state
  {
    var c := Command.CreateGroup(g, u);
    Runs(h, w, ["create_group", token, g], ip, env, u, c);
    if Exec(h, w.state, c).ok {
      GroupRuns(h, w.state, c);
      MembersAfterAll(h, w.state, c, g);
      OwnerAfter(h, w.state, c, g);
    } else {
      RejectedChangesNothing(h, w.state, c);
    }
  }

  /** join_group: the session's user becomes one more applicant, unless a member already. */
  lemma JoinGroupMessage(h: Digest, w: World, token: string, g: string, u: string, ip: string, env: Env)
    requires Words(["join_group", token, g]) && Speaks(w, token, env.now, u)
    ensures var (w', a) := Sent(h, w, ["join_group", token, g], ip, env);
      && w'.sessions == w.sessions
      && a == Done(Registered(w.state, u) && Has(w.state, GroupAtom(g)) && !Member(w.state, g, u))
      && if a == Done(true)
         then OnlyGroup(w.state, w'.state, g) && Owns(w'.state, g, w.state.groups[g].owner)
              && MembersBecome(w.state, w'.state, g, {}, {}) && ApplicantsBecome(w.state, w'.state, g, {u}, {})
         else w'.state == w.state
  {
    var c := Command.JoinGroup(g, u);
    Runs(h, w, ["join_group", token, g], ip, env, u, c);
    if Exec(h, w.state, c).ok {
      GroupRuns(h, w.state, c);
      MembersAfterAll(h, w.state, c, g);
      OwnerAfter(h, w.state, c, g);
    } else {
      RejectedChangesNothing(h, w.state, c);
    }
  }

  /** leave_group: the session's user is a member no more; a group its owner leaves passes on or is nobody's. */
  lemma LeaveGroupMessage(h: Digest, w: World, token: string, g: string, u: string, ip: string, env: Env)
    requires Words(["leave_group", token, g]) && Speaks(w, token, env.now, u)
    ensures var (w', a) := Sent(h, w, ["leave_group", token, g], ip, env);
      && w'.sessions == w.sessions
      && a == Done(Registered(w.state, u) && Member(w.state, g, u))
      && if a == Done(true)
         then OnlyGroup(w.state, w'.state, g)
              && MembersBecome(w.state, w'.state, g, {}, {u}) && ApplicantsBecome(w.state, w'.state, g, {}, {})
              && PassesOn(w.state, w'.state, g, u)
         else w'.state == w.state
  {
    var c := Command.LeaveGroup(g, u, env.heir);
    Runs(h, w, ["leave_group", token, g], ip, env, u, c);
    if Exec(h, w.state, c).ok {
      GroupRuns(h, w.state, c);
      MembersAfterAll(h, w.state, c, g);
      OwnerAfter(h, w.state, c, g);
    } else {
      RejectedChangesNothing(h, w.state, c);
    }
  }

  /** Somebody else's group stays theirs; one's own goes to a remaining member, if there is any. */
  ghost predicate PassesOn(s: State, t: State, g: string, u: string) {
    && g in s.groups && g in t.groups
    && if !Owns(s, g, u) then t.groups[g].owner == s.groups[g].owner
       else if exists v :: Remains(s, g, u, v) then Remains(s, g, u, t.groups[g].owner)
       else t.groups[g].owner == ""
  }

  /** accept_request: on the owner's word a registered applicant is a member and no longer an applicant. */
  lemma AcceptRequestMessage(h: Digest, w: World, token: string, g: string, x: string, u: string, ip: string, env: Env)
    requires Words(["accept_request", token, g, x]) && Speaks(w, token, env.now, u)
    ensures var (w', a) := Sent(h, w, ["accept_request", token, g, x], ip, env);
      && w'.sessions == w.sessions
      && a == Done(Registered(w.state, x) && Applicant(w.state, g, x) && Owns(w.state, g, u))
      && if a == Done(true)
         then OnlyGroup(w.state, w'.state, g) && Owns(w'.state, g, u)
              && MembersBecome(w.state, w'.state, g, {x}, {}) && ApplicantsBecome(w.state, w'.state, g, {}, {x})
         else w'.state == w.state
  {
    var c := Command.AcceptRequest(g, x, u);
    Runs(h, w, ["accept_request", token, g, x], ip, env, u, c);
    if Exec(h, w.state, c).ok {
      GroupRuns(h, w.state, c);
      MembersAfterAll(h, w.state, c, g);
      OwnerAfter(h, w.state, c, g);
    } else {
      RejectedChangesNothing(h, w.state, c);
    }
  }

  /** reject_request: on the owner's word an applicant is one no longer, and becomes nothing else. */
  lemma RejectRequestMessage(h: Digest, w: World, token: string, g: string, x: string, u: string, ip: string, env: Env)
    requires Words(["reject_request", token, g, x]) && Speaks(w, token, env.now, u)
    ensures var (w', a) := Sent(h, w, ["reject_request", token, g, x], ip, env);
      && w'.sessions == w.sessions
      && a == Done(Registered(w.state, x) && Applicant(w.state, g, x) && Owns(w.state, g, u))
      && if a == Done(true)
         then OnlyGroup(w.state, w'.state, g) && Owns(w'.state, g, u)
              && MembersBecome(w.state, w'.state, g, {}, {}) && ApplicantsBecome(w.state, w'.state, g, {}, {x})
         else w'.state == w.state
  {
    var c := Command.RejectRequest(g, x, u);
    Runs(h, w, ["reject_request", token, g, x], ip, env, u, c);
    if Exec(h, w.state, c).ok {
      GroupRuns(h, w.state, c);
      MembersAfterAll(h, w.state, c, g);
      OwnerAfter(h, w.state, c, g);
    } else {
      RejectedChangesNothing(h, w.state, c);
    }
  }

  // ---------- Seeders ----------

  predicate Seeds(s: State, k: string, u: string) {
    Has(s, SeederAtom(k, u))
  }

  /** Only who seeds this file differs. */
  ghost predicate OnlySeeders(s: State, t: State, k: string, joined: set<string>, left: set<string>) {
    && t.peers == s.peers && t.groups == s.groups && t.index == s.index && t.files.Keys == s.files.Keys
    && (forall x :: x in s.files ==> t.files[x].(seeders := {}) == s.files[x].(seeders := {}))
    && (forall x, u :: x != k ==> (Seeds(t, x, u) <==> Seeds(s, x, u)))
    && (forall u :: Seeds(t, k, u) <==> (k in s.files && u in joined) || (Seeds(s, k, u) && u !in left))
  }

  lemma SeedersRun(h: Digest, s: State, c: Command)
    requires (c.FileDownloaded? || c.StopShare?) && Exec(h, s, c).ok
    ensures OnlySeeders(s, Exec(h, s, c).state, FilesKey(c.gid, c.fname),
                        if c.FileDownloaded? then {c.user} else {}, if c.StopShare? then {c.user} else {})
  {
  }

  lemma SeedersEffect(h: Digest, s: State, c: Command)
    requires c.FileDownloaded? || c.StopShare?
    ensures if Allowed(h, s, c)
            then OnlySeeders(s, Exec(h, s, c).state, FilesKey(c.gid, c.fname),
                             if c.FileDownloaded? then {c.user} else {}, if c.StopShare? then {c.user} else {})
            else Exec(h, s, c).state == s
  {
    AcceptedIff(h, s, c);
    if Exec(h, s, c).ok {
      SeedersRun(h, s, c);
    } else {
      RejectedChangesNothing(h, s, c);
    }
  }

  /** file_downloaded: a member seeds a listed file from now on. */
  lemma FileDownloadedMessage(h: Digest, w: World, token: string, g: string, f: string, u: string, ip: string, env: Env)
    requires Words(["file_downloaded", token, g, f]) && Speaks(w, token, env.now, u)
    ensures var (w', a) := Sent(h, w, ["file_downloaded", token, g, f], ip, env);
      && w'.sessions == w.sessions
      && a == Done(Registered(w.state, u) && Member(w.state, g, u) && Has(w.state, IndexAtom(g, f)))
      && if a == Done(true) then OnlySeeders(w.state, w'.state, FilesKey(g, f), {u}, {}) else w'.state == w.state
  {
    var c := Command.FileDownloaded(g, f, u);
    Runs(h, w, ["file_downloaded", token, g, f], ip, env, u, c);
    SeedersEffect(h, w.state, c);
  }

  /** stop_share: a member seeds the file no longer. */
  lemma StopShareMessage(h: Digest, w: World, token: string, g: string, f: string, u: string, ip: string, env: Env)
    requires Words(["stop_share", token, g, f]) && Speaks(w, token, env.now, u)
    ensures var (w', a) := Sent(h, w, ["stop_share", token, g, f], ip, env);
      && w'.sessions == w.sessions
      && a == Done(Registered(w.state, u) && Member(w.state, g, u) && Has(w.state, IndexAtom(g, f))
                   && Has(w.state, FileAtom(FilesKey(g, f))))
      && if a == Done(true) then OnlySeeders(w.state, w'.state, FilesKey(g, f), {}, {u}) else w'.state == w.state
  {
    var c := Command.StopShare(g, f, u);
    Runs(h, w, ["stop_share", token, g, f], ip, env, u, c);
    SeedersEffect(h, w.state, c);
  }

  // ---------- Accounts ----------

  /** Only this account differs. */
  ghost predicate OnlyAccount(s: State, t: State, n: string) {
    && t.groups == s.groups && t.files == s.files && t.index == s.index
    && forall x :: x != n ==> (x in t.peers <==> x in s.peers) && (x in s.peers ==> t.peers[x] == s.peers[x])
  }

  /** create_user: a new name gets an account with a salted digest of its password. */
  lemma CreateUserMessage(h: Digest, w: World, n: string, passcode: string, ip: string, env: Env)
    requires Words(["create_user", n, passcode])
    ensures var (w', a) := Sent(h, w, ["create_user", n, passcode], ip, env);
      && w'.sessions == w.sessions
      && a == Done(!Registered(w.state, n) && env.salt != "" && h(env.salt + passcode) != "")
      && if a == Done(true)
         then OnlyAccount(w.state, w'.state, n) && Registered(w'.state, n) && !w'.state.peers[n].connected
              && forall q :: PasswordFits(h, w'.state.peers[n], q) <==> h(env.salt + q) == h(env.salt + passcode)
         else w'.state == w.state
  {
    var c := Command.CreateUser(n, passcode, env.salt);
    SentIs(h, w, ["create_user", n, passcode], ip, env);
    AcceptedIff(h, w.state, c);
    if Exec(h, w.state, c).ok {
      AccountAfter(h, w.state, c, n);
    } else {
      RejectedChangesNothing(h, w.state, c);
    }
  }

  /** The decimal numbers a client can listen on. */
  ghost predicate PortNumber(s: string) {
    exists p :: Spells(s, p) && 1 <= p <= 65535
  }

  lemma ListenPortIff(s: string)
    ensures ListenPort(s) <==> PortNumber(s)
  {
    if ListenPort(s) {
      ParseIntIff(s, ParseInt(s).value);
    }
    if p :| Spells(s, p) && 1 <= p <= 65535 {
      ParseIntIff(s, p);
    }
  }

  /** login: with a port number and the right password the user is connected and gets a session for a day. */
  lemma LoginMessage(h: Digest, w: World, n: string, q: string, port: string, ip: string, env: Env)
    requires Words(["login", n, q, port])
    ensures var (w', a) := Sent(h, w, ["login", n, q, port], ip, env);
      if !PortNumber(port) then a == BadArguments && w' == w
      else if !(Registered(w.state, n) && PasswordFits(h, w.state.peers[n], q)) then a == Done(false) && w' == w
      else
        && a == (if env.token == "" then NoEntropy else SignedIn(env.token))
        && OnlyAccount(w.state, w'.state, n)
        && w'.state.peers[n] == w.state.peers[n].(hostip := ip, hostport := port, connected := true)
        && w'.sessions == if env.token == "" then w.sessions
                          else w.sessions[env.token := Session(n, ip, port, env.now + 86_400_000_000_000)]
  {
    SentIs(h, w, ["login", n, q, port], ip, env);
    ListenPortIff(port);
    if PortNumber(port) {
      LoggedIn(h, w, ["login", n, q, port], ip, env);
    }
  }

  lemma LoggedIn(h: Digest, w: World, ts: seq<string>, ip: string, env: Env)
    requires |ts| == 4 && ListenPort(ts[3])
    ensures var (w', a), n := SignIn(h, w, ts, ip, env), ts[1];
      if !(Registered(w.state, n) && PasswordFits(h, w.state.peers[n], ts[2])) then a == Done(false) && w' == w
      else
        && a == (if env.token == "" then NoEntropy else SignedIn(env.token))
        && OnlyAccount(w.state, w'.state, n)
        && w'.state.peers[n] == w.state.peers[n].(hostip := ip, hostport := ts[3], connected := true)
        && w'.sessions == if env.token == "" then w.sessions
                          else w.sessions[env.token := Session(n, ip, ts[3], env.now + 86_400_000_000_000)]
  {
    AcceptedIff(h, w.state, Command.Login(ts[1], ts[2], ip, ts[3]));
  }

  /** logout: the token is a session no longer, and whoever it spoke for is not connected. */
  lemma LogoutMessage(h: Digest, w: World, token: string, ip: string, env: Env)
    requires Words(["logout", token])
    ensures var (w', a) := Sent(h, w, ["logout", token], ip, env);
      && w'.sessions == w.sessions - {token}
      && (if token in w.sessions && w.sessions[token].user != "" then
            var u := w.sessions[token].user;
            && a == Done(Registered(w.state, u)) && OnlyAccount(w.state, w'.state, u)
            && (Registered(w.state, u) ==>
                  w'.state.peers[u] == w.state.peers[u].(hostip := "", hostport := "", connected := false))
          else a == AuthRequired && w'.state == w.state)
  {
    SentIs(h, w, ["logout", token], ip, env);
  }

  // ---------- Refusals ----------

  /** Without a session in time nothing but the open verbs does anything. */
  lemma NoSession(h: Digest, w: World, ts: seq<string>, ip: string, env: Env)
    requires Words(ts) && ts != [] && !Open(ts[0])
    requires |ts| < 2 || forall u :: !Speaks(w, ts[1], env.now, u)
    ensures var (w', a) := Sent(h, w, ts, ip, env);
      a == AuthRequired && w'.state == w.state && w'.version == w.version
  {
    SentIs(h, w, ts, ip, env);
    if |ts| >= 2 && ts[1] in w.sessions {
      assert !Speaks(w, ts[1], env.now, w.sessions[ts[1]].user);
    }
  }

  /** A command with too many or too few words does nothing. */
  lemma WrongCount(h: Digest, w: World, ts: seq<string>, u: string, ip: string, env: Env)
    requires Words(ts) && |ts| >= 2 && Speaks(w, ts[1], env.now, u)
    requires (ts[0] in {"create_group", "join_group", "leave_group"} && |ts| != 3)
          || (ts[0] in {"accept_request", "reject_request", "file_downloaded", "stop_share"} && |ts| != 4)
    ensures Sent(h, w, ts, ip, env) == (w, BadArguments)
  {
    SentIs(h, w, ts, ip, env);
    SessionStays(w, ts[1], env.now, u);
  }

  // ---------- Downloads ----------

  /** download_file: whoever is a member, and nobody else, is told about a file of the group. */
  lemma DownloadMessage(h: Digest, w: World, token: string, g: string, f: string, u: string, ip: string, env: Env)
    requires Words(["download_file", token, g, f]) && Speaks(w, token, env.now, u)
    ensures var (w', a) := Sent(h, w, ["download_file", token, g, f], ip, env);
      && w' == w && a.FileText?
      && (a.ok <==> Registered(w.state, u) && Member(w.state, g, u) && Has(w.state, IndexAtom(g, f))
                    && Has(w.state, FileAtom(FilesKey(g, f))))
  {
    SentIs(h, w, ["download_file", token, g, f], ip, env);
    SessionStays(w, token, env.now, u);
  }

  /** The three listings: who gets an answer, and that asking changes nothing. */
  lemma ListMessage(h: Digest, w: World, ts: seq<string>, u: string, ip: string, env: Env)
    requires Words(ts) && |ts| >= 2 && Speaks(w, ts[1], env.now, u)
    requires ts[0] == "list_groups" || (|ts| == 3 && ts[0] in {"list_requests", "list_files"})
    ensures var (w', a) := Sent(h, w, ts, ip, env);
      && w' == w && a.ListText?
      && (a.ok <==>
            || ts[0] == "list_groups"
            || (ts[0] == "list_requests" && Registered(w.state, u) && Owns(w.state, ts[2], u))
            || (ts[0] == "list_files" && Registered(w.state, u) && Member(w.state, ts[2], u)))
  {
    SentIs(h, w, ts, ip, env);
    SessionStays(w, ts[1], env.now, u);
  }

  /** Registration and login take exactly their words. */
  lemma WrongCountOpen(h: Digest, w: World, ts: seq<string>, ip: string, env: Env)
    requires Words(ts) && ts != []
    requires (ts[0] == "create_user" && |ts| != 3) || (ts[0] == "login" && |ts| != 4)
    ensures Sent(h, w, ts, ip, env) == (w, BadArguments)
  {
    SentIs(h, w, ts, ip, env);
  }

  // ---------- Uploads ----------

  /** The counts of an upload are taken exactly when they are numbers that fit each other and the hashes. */
  lemma UploadCountsIff(ts: seq<string>, size: int, n: int)
    requires |ts| >= 7
    ensures UploadCounts(ts) == Some((size, n)) <==>
            && Spells(ts[4], size) && 0 <= size <= MAX_LL && Spells(ts[6], n) && 0 <= n <= MAX_INT
            && n == PieceCount(size) && |ts| == n + 7
  {
    ParseLLIff(ts[4], size);
    ParseIntIff(ts[6], n);
  }

  /** An upload whose counts do not fit stores nothing. */
  lemma UploadRefused(h: Digest, w: World, ts: seq<string>, u: string, ip: string, env: Env)
    requires Words(ts) && |ts| >= 2 && ts[0] == "upload_file" && Speaks(w, ts[1], env.now, u)
    requires |ts| < 7 || UploadCounts(ts).None?
    ensures Sent(h, w, ts, ip, env) == (w, BadArguments)
  {
    SentIs(h, w, ts, ip, env);
    SessionStays(w, ts[1], env.now, u);
  }
}
