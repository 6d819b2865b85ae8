/** What lasts over whole runs: passwords, sessions, and what a connection remembers. */
module Lasting {
  import opened Text
  import opened States
  import opened Records
  import opened Commands
  import opened Effects
  import opened Sessions
  import opened Dispatch
  import opened Connections
  import opened Provenance
  import opened Messages
  import Merging

  // ---------- Passwords ----------

  /** The account is still there, with the credentials it had. */
  predicate SameCredentials(s: State, t: State, n: string)
    requires n in s.peers
  {
    n in t.peers && t.peers[n].salt == s.peers[n].salt && t.peers[n].hash == s.peers[n].hash
  }

  lemma ExecuteKeepsCredentials(h: Digest, w: World, c: Command, n: string)
    requires n in w.state.peers && (c.UploadFile? ==> c.numPieces >= 0)
    ensures SameCredentials(w.state, Execute(h, w, c).0.state, n)
  {
    if Exec(h, w.state, c).ok {
      FactsAfter(h, w.state, c, UserAtom(n));
      AccountAfter(h, w.state, c, n);
      AcceptedIff(h, w.state, c);
    } else {
      RejectedChangesNothing(h, w.state, c);
    }
  }

  lemma MergeKeepsCredentials(w: World, payload: string, n: string)
    requires n in w.state.peers
    ensures SameCredentials(w.state, MergeIn(w, payload).0.state, n)
  {
    Merging.MergeKeeps(w.state, payload);
  }

  lemma SessionKeepsCredentials(h: Digest, w: World, args: seq<string>, env: Env, n: string)
    requires n in w.state.peers && |args| >= 2
    ensures SameCredentials(w.state, WithSession(h, w, args, env).0.state, n)
  {
    var w' := w.(sessions := AfterLookup(w.sessions, args[1], env.now));
    var v := Valid(w.sessions, args[1], env.now);
    if v.Some? && Changes(args[0]) && CommandFor(args, v.value.user, env.heir).Some? {
      ExecuteKeepsCredentials(h, w', CommandFor(args, v.value.user, env.heir).value, n);
    }
  }

  lemma OpenKeepsCredentials(h: Digest, w: World, args: seq<string>, ip: string, raw: string, env: Env, n: string)
    requires n in w.state.peers && args != [] && (Open(args[0]) || |args| < 2)
    ensures SameCredentials(w.state, Serve(h, w, args, ip, raw, env).0.state, n)
  {
    if args[0] == "STATE" {
      if StatePayload(raw).Some? {
        MergeKeepsCredentials(w, StatePayload(raw).value, n);
      }
    } else if args[0] == "create_user" {
      if |args| == 3 {
        ExecuteKeepsCredentials(h, w, Command.CreateUser(args[1], args[2], env.salt), n);
      }
    } else if args[0] == "login" {
      if |args| == 4 {
        ExecuteKeepsCredentials(h, w, Command.Login(args[1], args[2], ip, args[3]), n);
      }
    } else if args[0] == "logout" && |args| >= 2 && args[1] in w.sessions {
      var w' := w.(sessions := w.sessions - {args[1]});
      ExecuteKeepsCredentials(h, w', Command.Logout(w.sessions[args[1]].user), n);
    }
  }

  lemma NextKeepsCredentials(h: Digest, s: Service, x: Input, n: string)
    requires n in s.world.state.peers
    ensures SameCredentials(s.world.state, NextOf(h, s, x).world.state, n)
  {
    match x
    case Drop(c) =>
      var k := ConnOf(s, c);
      var w' := if k.token != "" then s.world.(sessions := s.world.sessions - {k.token}) else s.world;
      ExecuteKeepsCredentials(h, w', Command.Disconnect(k.user), n);
    case Message(c, ip, raw, env) =>
      var args := Tokens(raw);
      if args != [] {
        if Open(args[0]) || |args| < 2 {
          OpenKeepsCredentials(h, s.world, args, ip, raw, env, n);
        } else {
          SessionKeepsCredentials(h, s.world, args, env, n);
        }
      }
  }

  /** Nothing that happens later, merges included, changes or removes the credentials of an account. */
  lemma {:induction false} CredentialsLast(h: Digest, run: seq<Service>, xs: seq<Input>, i: nat, j: nat, n: string)
    requires ServiceRun(h, run, xs) && i <= j < |run| && n in run[i].world.state.peers
    ensures SameCredentials(run[i].world.state, run[j].world.state, n)
  {
    if i < j {
      CredentialsLast(h, run, xs, i, j - 1, n);
      assert StepAt(h, run, xs, j - 1);
      NextKeepsCredentials(h, run[j - 1], xs[j - 1], n);
    }
  }

  /**
   * From the moment a user registers, a login with some password is accepted if and only if that password,
   * salted alike, has the digest of the one registered with.
   */
  lemma OnlyThePassword(h: Digest, run: seq<Service>, xs: seq<Input>, i: nat, j: nat, n: string, passcode: string,
                        q: string, ip: string, port: string)
    requires ServiceRun(h, run, xs) && i < j < |run| && Words(["create_user", n, passcode])
    requires xs[i].Message? && xs[i].raw == Spaced(["create_user", n, passcode])
    requires Sent(h, run[i].world, ["create_user", n, passcode], xs[i].ip, xs[i].env).1 == Done(true)
    ensures Exec(h, run[j].world.state, Command.Login(n, q, ip, port)).ok
            <==> h(xs[i].env.salt + q) == h(xs[i].env.salt + passcode)
  {
    TokensOfSpaced(["create_user", n, passcode]);
    assert StepAt(h, run, xs, i);
    RegisteredWith(h, run[i].world, n, passcode, xs[i].ip, xs[i].env);
    CredentialsLast(h, run, xs, i + 1, j, n);
    AcceptedIff(h, run[j].world.state, Command.Login(n, q, ip, port));
  }

  lemma RegisteredWith(h: Digest, w: World, n: string, passcode: string, ip: string, env: Env)
    requires Words(["create_user", n, passcode])
    requires Sent(h, w, ["create_user", n, passcode], ip, env).1 == Done(true)
    ensures var t := Sent(h, w, ["create_user", n, passcode], ip, env).0.state;
      && n in t.peers && t.peers[n].salt == env.salt != "" && t.peers[n].hash == h(env.salt + passcode) != ""
  {
    var c := Command.CreateUser(n, passcode, env.salt);
    SentIs(h, w, ["create_user", n, passcode], ip, env);
    AccountAfter(h, w.state, c, n);
    AcceptedIff(h, w.state, c);
  }

  // ---------- Sessions ----------

  /** The step neither revokes the token nor hands it out again, and comes before the session expires. */
  predicate LeavesSession(s: Service, x: Input, token: string)
    requires token in s.world.sessions
  {
    match x
    case Drop(c) => ConnOf(s, c).token != token
    case Message(_, _, raw, env) =>
      var args := Tokens(raw);
      && env.now < s.world.sessions[token].expires
      && !(|args| >= 2 && args[0] == "logout" && args[1] == token)
      && !(args != [] && args[0] == "login" && env.token == token)
  }

  lemma StepLeavesSession(h: Digest, s: Service, x: Input, token: string)
    requires token in s.world.sessions && LeavesSession(s, x, token)
    ensures var t := NextOf(h, s, x).world.sessions;
      token in t && t[token] == s.world.sessions[token]
  {
  }

  ghost predicate LeftAlone(run: seq<Service>, xs: seq<Input>, i: nat, j: nat, token: string)
    requires i <= j < |run| == |xs| + 1
  {
    forall m: nat | i <= m < j :: token in run[m].world.sessions ==> LeavesSession(run[m], xs[m], token)
  }

  /** A session stays what it is until it is revoked or runs out, however often it is used. */
  lemma {:induction false} SessionLasts(h: Digest, run: seq<Service>, xs: seq<Input>, i: nat, j: nat, token: string)
    requires ServiceRun(h, run, xs) && i <= j < |run| && token in run[i].world.sessions
    requires LeftAlone(run, xs, i, j, token)
    ensures token in run[j].world.sessions && run[j].world.sessions[token] == run[i].world.sessions[token]
  {
    if i < j {
      assert LeftAlone(run, xs, i, j - 1, token);
      SessionLasts(h, run, xs, i, j - 1, token);
      assert StepAt(h, run, xs, j - 1);
      StepLeavesSession(h, run[j - 1], xs[j - 1], token);
    }
  }

  /** Whoever logged in speaks for themselves for a day, if nothing ends the session before. */
  lemma LoginLasts(h: Digest, run: seq<Service>, xs: seq<Input>, i: nat, j: nat, n: string, q: string, port: string,
                   now: Time)
    requires ServiceRun(h, run, xs) && i < j < |run| && Words(["login", n, q, port])
    requires xs[i].Message? && xs[i].raw == Spaced(["login", n, q, port])
    requires Sent(h, run[i].world, ["login", n, q, port], xs[i].ip, xs[i].env).1 == SignedIn(xs[i].env.token)
    requires LeftAlone(run, xs, i + 1, j, xs[i].env.token) && now < xs[i].env.now + 86_400_000_000_000
    ensures Speaks(run[j].world, xs[i].env.token, now, n)
  {
    LoginStarts(h, run, xs, i, n, q, port);
    SessionLasts(h, run, xs, i + 1, j, xs[i].env.token);
  }

  lemma LoginStarts(h: Digest, run: seq<Service>, xs: seq<Input>, i: nat, n: string, q: string, port: string)
    requires ServiceRun(h, run, xs) && i < |xs| && Words(["login", n, q, port])
    requires xs[i].Message? && xs[i].raw == Spaced(["login", n, q, port])
    requires Sent(h, run[i].world, ["login", n, q, port], xs[i].ip, xs[i].env).1 == SignedIn(xs[i].env.token)
    ensures var token, t := xs[i].env.token, run[i + 1].world.sessions;
      token != "" && token in t && t[token] == Session(n, xs[i].ip, port, xs[i].env.now + 86_400_000_000_000)
  {
    TokensOfSpaced(["login", n, q, port]);
    assert StepAt(h, run, xs, i);
    LoginMessage(h, run[i].world, n, q, port, xs[i].ip, xs[i].env);
  }

  // ---------- Dropped connections ----------

  /** The step neither drops the connection, nor is a logout or a successful login on it. */
  ghost predicate LeavesConn(h: Digest, s: Service, x: Input, c: nat) {
    match x
    case Drop(d) => d != c
    case Message(d, ip, raw, env) =>
      var args := Tokens(raw);
      d == c && args != [] ==>
        && args[0] != "logout"
        && (args[0] == "login" ==> !Serve(h, s.world, args, ip, raw, env).1.SignedIn?)
  }

  lemma {:induction false} ConnLasts(h: Digest, run: seq<Service>, xs: seq<Input>, i: nat, j: nat, c: nat)
    requires ServiceRun(h, run, xs) && i <= j < |run| && forall m: nat | i <= m < j :: LeavesConn(h, run[m], xs[m], c)
    ensures ConnOf(run[j], c) == ConnOf(run[i], c)
  {
    if i < j {
      ConnLasts(h, run, xs, i, j - 1, c);
      assert StepAt(h, run, xs, j - 1) && LeavesConn(h, run[j - 1], xs[j - 1], c);
    }
  }

  lemma LoginRemembered(h: Digest, s: Service, x: Input, n: string, q: string, port: string)
    requires Words(["login", n, q, port]) && x.Message? && x.raw == Spaced(["login", n, q, port])
    requires Sent(h, s.world, ["login", n, q, port], x.ip, x.env).1 == SignedIn(x.env.token)
    ensures ConnOf(NextOf(h, s, x), x.conn) == Conn(n, x.env.token)
    ensures x.env.token != "" && n != ""
  {
    TokensOfSpaced(["login", n, q, port]);
    LoginMessage(h, s.world, n, q, port, x.ip, x.env);
    assert Word(["login", n, q, port][1]);
  }

  /** When a connection drops, the session it last logged in for ends, and its user is not connected. */
  lemma DropEndsSession(h: Digest, run: seq<Service>, xs: seq<Input>, i: nat, j: nat, n: string, q: string,
                        port: string)
    requires ServiceRun(h, run, xs) && i < j < |xs| && Words(["login", n, q, port])
    requires xs[i].Message? && xs[i].raw == Spaced(["login", n, q, port])
    requires Sent(h, run[i].world, ["login", n, q, port], xs[i].ip, xs[i].env).1 == SignedIn(xs[i].env.token)
    requires (forall m: nat | i < m < j :: LeavesConn(h, run[m], xs[m], xs[i].conn)) && xs[j] == Drop(xs[i].conn)
    ensures xs[i].env.token !in run[j + 1].world.sessions
    ensures n in run[j + 1].world.state.peers ==> !run[j + 1].world.state.peers[n].connected
  {
    assert StepAt(h, run, xs, i);
    LoginRemembered(h, run[i], xs[i], n, q, port);
    ConnLasts(h, run, xs, i + 1, j, xs[i].conn);
    assert StepAt(h, run, xs, j);
    DropSignsOff(h, run[j].world, ConnOf(run[j], xs[i].conn));
  }

  lemma DropSignsOff(h: Digest, w: World, c: Conn)
    requires c.user != "" && c.token != ""
    ensures c.token !in Dropped(h, w, c).sessions
    ensures c.user in Dropped(h, w, c).state.peers ==> !Dropped(h, w, c).state.peers[c.user].connected
  {
  }
}
