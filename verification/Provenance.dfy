/** Where sessions and memberships come from, traced back over whole runs of one tracker. */
module Provenance {
  import opened Text
  import opened States
  import opened Records
  import opened Commands
  import opened Effects
  import opened Sessions
  import opened Dispatch
  import opened Connections
  import Merging

  function Args(x: Input): seq<string> {
    if x.Message? then Tokens(x.raw) else []
  }

  // ---------- Sessions ----------

  /** Step `x` is a login of `s.user` whose password was verified, and the token was issued for it. */
  ghost predicate LoginStep(h: Digest, w: World, x: Input, token: string, s: Session) {
    && x.Message? && |Args(x)| == 4 && Args(x)[0] == "login" && Args(x)[1] == s.user
    && s.user in w.state.peers && PasswordFits(h, w.state.peers[s.user], Args(x)[2])
    && token != "" && token == x.env.token && s.expires == x.env.now + TTL
  }

  lemma SignInSessions(h: Digest, w: World, args: seq<string>, ip: string, env: Env, token: string)
    requires args != [] && args[0] == "login"
    requires token in SignIn(h, w, args, ip, env).0.sessions
    ensures var s := SignIn(h, w, args, ip, env).0.sessions[token];
      || (token in w.sessions && w.sessions[token] == s)
      || (|args| == 4 && args[1] == s.user && s.user in w.state.peers
          && PasswordFits(h, w.state.peers[s.user], args[2])
          && token == env.token != "" && s.expires == env.now + TTL)
  {
  }

  lemma OtherSessions(h: Digest, w: World, args: seq<string>, ip: string, raw: string, env: Env, token: string)
    requires args != [] && args[0] != "login"
    requires token in Serve(h, w, args, ip, raw, env).0.sessions
    ensures token in w.sessions && w.sessions[token] == Serve(h, w, args, ip, raw, env).0.sessions[token]
  {
  }

  /** Only a verified login makes a session; every other step can only take sessions away. */
  lemma SessionStep(h: Digest, s: Service, x: Input, token: string)
    requires token in NextOf(h, s, x).world.sessions
    ensures var t := NextOf(h, s, x).world.sessions[token];
      (token in s.world.sessions && s.world.sessions[token] == t) || LoginStep(h, s.world, x, token, t)
  {
    if x.Message? && Args(x) != [] {
      if Args(x)[0] == "login" {
        SignInSessions(h, s.world, Args(x), x.ip, x.env, token);
      } else {
        OtherSessions(h, s.world, Args(x), x.ip, x.raw, x.env, token);
      }
    }
  }

  /** The session was there, unchanged, at every moment after step k up to moment j. */
  ghost predicate Alive(run: seq<Service>, token: string, s: Session, k: nat, j: nat)
    requires k < j < |run|
  {
    forall m :: k < m <= j ==> token in run[m].world.sessions && run[m].world.sessions[token] == s
  }

  ghost predicate IssuedAt(h: Digest, run: seq<Service>, xs: seq<Input>, token: string, s: Session, k: nat, j: nat)
    requires |run| == |xs| + 1 && j < |run|
  {
    k < j && LoginStep(h, run[k].world, xs[k], token, s) && Alive(run, token, s, k, j)
  }

  /** Every session goes back to a verified login, and was never revoked since. */
  lemma {:induction false} SessionOrigin(h: Digest, run: seq<Service>, xs: seq<Input>, token: string, j: nat)
    returns (k: nat)
    requires ServiceRun(h, run, xs) && j < |run| && token in run[j].world.sessions
    ensures IssuedAt(h, run, xs, token, run[j].world.sessions[token], k, j)
  {
    assert j > 0;
    SessionCarried(h, run, xs, token, j - 1);
    if token in run[j - 1].world.sessions && run[j - 1].world.sessions[token] == run[j].world.sessions[token] {
      k := SessionOrigin(h, run, xs, token, j - 1);
    } else {
      k := j - 1;
    }
  }

  lemma SessionCarried(h: Digest, run: seq<Service>, xs: seq<Input>, token: string, i: nat)
    requires ServiceRun(h, run, xs) && i < |xs| && token in run[i + 1].world.sessions
    ensures var s := run[i + 1].world.sessions[token];
      || (token in run[i].world.sessions && run[i].world.sessions[token] == s)
      || LoginStep(h, run[i].world, xs[i], token, s)
  {
    assert StepAt(h, run, xs, i);
    SessionStep(h, run[i], xs[i], token);
  }

  /** Step j is a message of `user`: its token is a session of `user`, by a verified login, in time. */
  ghost predicate ActsAs(h: Digest, run: seq<Service>, xs: seq<Input>, j: nat, user: string)
    requires |run| == |xs| + 1 && j < |xs|
  {
    && |Args(xs[j])| >= 2
    && exists k: nat, s :: IssuedAt(h, run, xs, Args(xs[j])[1], s, k, j)
                      && s.user == user && xs[j].env.now < xs[k].env.now + TTL
  }

  // ---------- One step ----------

  lemma ExecMember(h: Digest, s: State, c: Command, g: string, u: string)
    requires c.UploadFile? ==> c.numPieces >= 0
    requires Member(Exec(h, s, c).state, g, u) && !Member(s, g, u)
    ensures c == Command.CreateGroup(g, u)
         || (g in s.groups && c == Command.AcceptRequest(g, u, s.groups[g].owner) && Applicant(s, g, u))
  {
  }

  lemma ExecApplicant(h: Digest, s: State, c: Command, g: string, u: string)
    requires c.UploadFile? ==> c.numPieces >= 0
    requires Applicant(Exec(h, s, c).state, g, u) && !Applicant(s, g, u)
    ensures c == Command.JoinGroup(g, u)
  {
  }

  /** The command a step runs on behalf of a session, if it runs one. */
  ghost predicate Orders(w: World, x: Input, c: Command) {
    && x.Message? && |Args(x)| >= 2 && Changes(Args(x)[0])
    && Valid(w.sessions, Args(x)[1], x.env.now).Some?
    && CommandFor(Args(x), Valid(w.sessions, Args(x)[1], x.env.now).value.user, x.env.heir) == Some(c)
  }

  /** The payload a step merges, if it merges one. */
  ghost predicate Merges(x: Input, payload: State) {
    && Args(x) != [] && Args(x)[0] == "STATE"
    && StatePayload(x.raw).Some? && payload == Merging.Payload(StatePayload(x.raw).value)
  }

  lemma SessionGroups(h: Digest, w: World, x: Input)
    requires x.Message? && |Args(x)| >= 2 && Args(x)[0] !in {"SYNC_REQ", "STATE", "create_user", "login", "logout"}
    ensures var t := Serve(h, w, Args(x), x.ip, x.raw, x.env).0.state;
      t == w.state || exists c :: Orders(w, x, c) && t == Exec(h, w.state, c).state
  {
    var args := Args(x);
    var v := Valid(w.sessions, args[1], x.env.now);
    if v.Some? && Changes(args[0]) && CommandFor(args, v.value.user, x.env.heir).Some? {
      assert Orders(w, x, CommandFor(args, v.value.user, x.env.heir).value);
    }
  }

  lemma AccountsKeepGroups(h: Digest, w: World, args: seq<string>, ip: string, raw: string, env: Env)
    requires args != []
    requires args[0] in {"SYNC_REQ", "create_user", "login", "logout"} || (args[0] != "STATE" && |args| < 2)
    ensures Serve(h, w, args, ip, raw, env).0.state.groups == w.state.groups
  {
  }

  /** Groups change by a session's command or by a merge, and in no other way. */
  lemma GroupsChange(h: Digest, s: Service, x: Input)
    ensures var t := NextOf(h, s, x).world.state;
      || t.groups == s.world.state.groups
      || (exists c :: Orders(s.world, x, c) && t == Exec(h, s.world.state, c).state)
      || (exists p :: Merges(x, p) && t == Join(s.world.state, p))
  {
    if Args(x) != [] {
      var args := Args(x);
      if args[0] == "STATE" {
        if StatePayload(x.raw).Some? {
          assert Merges(x, Merging.Payload(StatePayload(x.raw).value));
        }
      } else if |args| < 2 || args[0] in {"SYNC_REQ", "create_user", "login", "logout"} {
        AccountsKeepGroups(h, s.world, args, x.ip, x.raw, x.env);
      } else {
        SessionGroups(h, s.world, x);
      }
    }
  }

  // ---------- Runs ----------

  /** At step j a session of `u` created group `g`. */
  ghost predicate Created(h: Digest, run: seq<Service>, xs: seq<Input>, j: nat, g: string, u: string)
    requires |run| == |xs| + 1 && j < |xs|
  {
    |Args(xs[j])| == 3 && Args(xs[j])[0] == "create_group" && Args(xs[j])[2] == g && ActsAs(h, run, xs, j, u)
  }

  ghost predicate AppliedInPerson(h: Digest, run: seq<Service>, xs: seq<Input>, j: nat, g: string, u: string)
    requires |run| == |xs| + 1 && j < |xs|
  {
    |Args(xs[j])| == 3 && Args(xs[j])[0] == "join_group" && Args(xs[j])[2] == g && ActsAs(h, run, xs, j, u)
  }

  /** At step j a session of the group's owner at that moment accepted `u`. */
  ghost predicate Accepted(h: Digest, run: seq<Service>, xs: seq<Input>, j: nat, g: string, u: string)
    requires |run| == |xs| + 1 && j < |xs|
  {
    && |Args(xs[j])| == 4 && Args(xs[j])[0] == "accept_request" && Args(xs[j])[2] == g && Args(xs[j])[3] == u
    && g in run[j].world.state.groups && ActsAs(h, run, xs, j, run[j].world.state.groups[g].owner)
  }

  ghost predicate BroughtIn(xs: seq<Input>, j: nat, g: string, u: string, member: bool)
    requires j < |xs|
  {
    exists p :: Merges(xs[j], p) && if member then Member(p, g, u) else Applicant(p, g, u)
  }

  lemma SessionActs(h: Digest, run: seq<Service>, xs: seq<Input>, j: nat, c: Command)
    requires ServiceRun(h, run, xs) && j < |xs| && Orders(run[j].world, xs[j], c)
    ensures ActsAs(h, run, xs, j, Valid(run[j].world.sessions, Args(xs[j])[1], xs[j].env.now).value.user)
  {
    var token := Args(xs[j])[1];
    var k := SessionOrigin(h, run, xs, token, j);
  }

  /** Whoever is an applicant was one at the start, came with a merge, or applied in person. */
  ghost predicate HasApplied(h: Digest, run: seq<Service>, xs: seq<Input>, i: nat, g: string, u: string)
    requires |run| == |xs| + 1 && i < |run|
  {
    || Applicant(run[0].world.state, g, u)
    || (exists j :: 0 <= j < i && BroughtIn(xs, j, g, u, false))
    || (exists j :: 0 <= j < i && AppliedInPerson(h, run, xs, j, g, u))
  }

  lemma ApplicantStep(h: Digest, run: seq<Service>, xs: seq<Input>, j: nat, g: string, u: string)
    requires ServiceRun(h, run, xs) && j < |xs|
    requires Applicant(run[j + 1].world.state, g, u) && !Applicant(run[j].world.state, g, u)
    ensures BroughtIn(xs, j, g, u, false) || AppliedInPerson(h, run, xs, j, g, u)
  {
    var w, t := run[j].world, run[j + 1].world.state;
    StepChanges(h, run, xs, j);
    if c :| Orders(w, xs[j], c) && t == Exec(h, w.state, c).state {
      ApplicantOrdered(h, w, xs[j], c, g, u);
      SessionActs(h, run, xs, j, c);
    } else if p :| Merges(xs[j], p) && t == Join(w.state, p) {
      ListedInPayload(w.state, p, g, u);
    }
  }

  lemma StepChanges(h: Digest, run: seq<Service>, xs: seq<Input>, j: nat)
    requires ServiceRun(h, run, xs) && j < |xs|
    ensures var w, t := run[j].world, run[j + 1].world.state;
      || t.groups == w.state.groups
      || (exists c :: Orders(w, xs[j], c) && t == Exec(h, w.state, c).state)
      || (exists p :: Merges(xs[j], p) && t == Join(w.state, p))
  {
    assert StepAt(h, run, xs, j);
    GroupsChange(h, run[j], xs[j]);
  }

  lemma ApplicantOrdered(h: Digest, w: World, x: Input, c: Command, g: string, u: string)
    requires Orders(w, x, c) && Applicant(Exec(h, w.state, c).state, g, u) && !Applicant(w.state, g, u)
    ensures |Args(x)| == 3 && Args(x)[0] == "join_group" && Args(x)[2] == g
    ensures Valid(w.sessions, Args(x)[1], x.env.now).value.user == u
  {
    ExecApplicant(h, w.state, c, g, u);
  }

  lemma ListedInPayload(s: State, p: State, g: string, u: string)
    ensures Applicant(Join(s, p), g, u) && !Applicant(s, g, u) ==> Applicant(p, g, u)
    ensures Member(Join(s, p), g, u) && !Member(s, g, u) ==> Member(p, g, u)
  {
  }

  lemma {:induction false} ApplicantOrigin(h: Digest, run: seq<Service>, xs: seq<Input>, i: nat, g: string, u: string)
    requires ServiceRun(h, run, xs) && i < |run| && Applicant(run[i].world.state, g, u)
    ensures HasApplied(h, run, xs, i, g, u)
  {
    if i > 0 {
      if Applicant(run[i - 1].world.state, g, u) {
        ApplicantOrigin(h, run, xs, i - 1, g, u);
      } else {
        ApplicantStep(h, run, xs, i - 1, g, u);
      }
    }
  }

  /** What made `u` a member at step j. */
  ghost predicate Entered(h: Digest, run: seq<Service>, xs: seq<Input>, j: nat, g: string, u: string)
    requires |run| == |xs| + 1 && j < |xs|
  {
    || BroughtIn(xs, j, g, u, true)
    || Created(h, run, xs, j, g, u)
    || (Accepted(h, run, xs, j, g, u) && HasApplied(h, run, xs, j, g, u))
  }

  lemma MemberStep(h: Digest, run: seq<Service>, xs: seq<Input>, j: nat, g: string, u: string)
    requires ServiceRun(h, run, xs) && j < |xs|
    requires Member(run[j + 1].world.state, g, u) && !Member(run[j].world.state, g, u)
    ensures Entered(h, run, xs, j, g, u)
  {
    var w, t := run[j].world, run[j + 1].world.state;
    StepChanges(h, run, xs, j);
    if c :| Orders(w, xs[j], c) && t == Exec(h, w.state, c).state {
      MemberOrdered(h, w, xs[j], c, g, u);
      SessionActs(h, run, xs, j, c);
      if Args(xs[j])[0] == "accept_request" {
        ApplicantOrigin(h, run, xs, j, g, u);
      }
    } else if p :| Merges(xs[j], p) && t == Join(w.state, p) {
      ListedInPayload(w.state, p, g, u);
    }
  }

  lemma MemberOrdered(h: Digest, w: World, x: Input, c: Command, g: string, u: string)
    requires Orders(w, x, c) && Member(Exec(h, w.state, c).state, g, u) && !Member(w.state, g, u)
    ensures var user := Valid(w.sessions, Args(x)[1], x.env.now).value.user;
      || (|Args(x)| == 3 && Args(x)[0] == "create_group" && Args(x)[2] == g && user == u)
      || (|Args(x)| == 4 && Args(x)[0] == "accept_request" && Args(x)[2] == g && Args(x)[3] == u
          && g in w.state.groups && user == w.state.groups[g].owner && Applicant(w.state, g, u))
  {
    ExecMember(h, w.state, c, g, u);
  }

  /**
   * In every run a member of a group was one at the start, came with a merge, created the group in
   * person, or was accepted by a session of the then owner after having applied; each session acting
   * here comes from a password-verified login of its user, was not revoked since, and is in time.
   */
  lemma {:induction false} MembershipOrigin(h: Digest, run: seq<Service>, xs: seq<Input>, i: nat, g: string, u: string)
    requires ServiceRun(h, run, xs) && i < |run| && Member(run[i].world.state, g, u)
    ensures Member(run[0].world.state, g, u) || exists j :: 0 <= j < i && Entered(h, run, xs, j, g, u)
  {
    if i > 0 {
      if Member(run[i - 1].world.state, g, u) {
        MembershipOrigin(h, run, xs, i - 1, g, u);
      } else {
        MemberStep(h, run, xs, i - 1, g, u);
      }
    }
  }

  /** Accepted by the owner, after applying, both in person. */
  ghost predicate Admitted(h: Digest, run: seq<Service>, xs: seq<Input>, j: nat, g: string, u: string)
    requires |run| == |xs| + 1 && j < |xs|
  {
    Accepted(h, run, xs, j, g, u) && exists k :: 0 <= k < j && AppliedInPerson(h, run, xs, k, g, u)
  }

  /** Without merges and from nothing, only sessions make members. */
  lemma OnlySessionsMakeMembers(h: Digest, run: seq<Service>, xs: seq<Input>, i: nat, g: string, u: string)
    requires ServiceRun(h, run, xs) && i < |run| && Member(run[i].world.state, g, u)
    requires run[0].world.state == EMPTY && forall x :: x in xs ==> Args(x) == [] || Args(x)[0] != "STATE"
    ensures exists j :: 0 <= j < i && (Created(h, run, xs, j, g, u) || Admitted(h, run, xs, j, g, u))
  {
    MembershipOrigin(h, run, xs, i, g, u);
    var j :| 0 <= j < i && Entered(h, run, xs, j, g, u);
    assert xs[j] in xs;
    assert !BroughtIn(xs, j, g, u, true);
    if !Created(h, run, xs, j, g, u) {
      forall k | 0 <= k < j ensures !BroughtIn(xs, k, g, u, false) {
        assert xs[k] in xs;
      }
    }
  }
}
