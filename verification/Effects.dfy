/** What each accepted command changes, fact by fact, and when a command is accepted. */
module Effects {
  import opened Text
  import opened States
  import opened Commands

  predicate Registered(s: State, u: string) {
    Has(s, UserAtom(u))
  }

  predicate Member(s: State, g: string, u: string) {
    Has(s, MemberAtom(g, u))
  }

  predicate Applicant(s: State, g: string, u: string) {
    Has(s, ApplicantAtom(g, u))
  }

  predicate Owns(s: State, g: string, u: string) {
    g in s.groups && s.groups[g].owner == u
  }

  /** The commands that put a user among the members of a group, and the one that takes one out. */
  predicate Admits(c: Command, g: string, u: string) {
    (c.CreateGroup? && c.gid == g && c.user == u) || (c.AcceptRequest? && c.gid == g && c.applicant == u)
  }

  predicate Dismisses(c: Command, g: string, u: string) {
    c.LeaveGroup? && c.gid == g && c.user == u
  }

  /** The commands that decide an application. */
  predicate Decides(c: Command, g: string, u: string) {
    (c.AcceptRequest? || c.RejectRequest?) && c.gid == g && c.applicant == u
  }

  /** After an accepted command, a fact holds exactly if it is one this command adds, or it held and is not removed. */
  predicate HoldsAfter(s: State, c: Command, a: Atom) {
    match a
    case UserAtom(u) => Has(s, a) || (c.CreateUser? && c.name == u)
    case GroupAtom(g) => Has(s, a) || (c.CreateGroup? && c.gid == g)
    case MemberAtom(g, u) => Admits(c, g, u) || (Has(s, a) && !Dismisses(c, g, u))
    case ApplicantAtom(g, u) =>
      (c.JoinGroup? && c.gid == g && c.user == u) || (Has(s, a) && !Decides(c, g, u))
    case FileAtom(k) => Has(s, a) || (c.UploadFile? && FilesKey(c.gid, c.fname) == k)
    case SeederAtom(k, u) =>
      || (c.UploadFile? && FilesKey(c.gid, c.fname) == k && c.user == u)
      || (c.FileDownloaded? && FilesKey(c.gid, c.fname) == k && c.user == u && Has(s, FileAtom(k)))
      || (Has(s, a) && !(c.StopShare? && FilesKey(c.gid, c.fname) == k && c.user == u))
    case IndexAtom(g, f) => Has(s, a) || (c.UploadFile? && c.gid == g && c.fname == f)
    case OwnerAtom(_) => Has(s, a)
  }

  /** The members left to inherit a group when `u` leaves it. */
  predicate Remains(s: State, g: string, u: string, v: string) {
    Member(s, g, v) && v != u
  }

  /** Exactly the facts a command is for: nothing more is added, nothing more is removed. */
  lemma FactsAfter(h: Digest, s: State, c: Command, a: Atom)
    requires (c.UploadFile? ==> c.numPieces >= 0) && Exec(h, s, c).ok && !a.OwnerAtom?
    ensures Has(Exec(h, s, c).state, a) <==> HoldsAfter(s, c, a)
  {
    match a
    case UserAtom(_) =>
    case GroupAtom(_) =>
    case MemberAtom(g, u) => MembersAfter(h, s, c, g, u);
    case ApplicantAtom(g, u) => ApplicantsAfter(h, s, c, g, u);
    case FileAtom(_) =>
    case SeederAtom(k, u) => SeedersAfter(h, s, c, k, u);
    case IndexAtom(_, _) =>
  }

  lemma MembersAfter(h: Digest, s: State, c: Command, g: string, u: string)
    requires (c.UploadFile? ==> c.numPieces >= 0) && Exec(h, s, c).ok
    ensures Member(Exec(h, s, c).state, g, u) <==> Admits(c, g, u) || (Member(s, g, u) && !Dismisses(c, g, u))
  {
  }

  lemma ApplicantsAfter(h: Digest, s: State, c: Command, g: string, u: string)
    requires (c.UploadFile? ==> c.numPieces >= 0) && Exec(h, s, c).ok
    ensures Applicant(Exec(h, s, c).state, g, u) <==>
            (c.JoinGroup? && c.gid == g && c.user == u) || (Applicant(s, g, u) && !Decides(c, g, u))
  {
  }

  lemma SeedersAfter(h: Digest, s: State, c: Command, k: string, u: string)
    requires (c.UploadFile? ==> c.numPieces >= 0) && Exec(h, s, c).ok
    ensures Has(Exec(h, s, c).state, SeederAtom(k, u)) <==> HoldsAfter(s, c, SeederAtom(k, u))
  {
  }

  /** Who owns a group afterwards: its founder, an heir when the owner leaves, or whoever did before. */
  lemma OwnerAfter(h: Digest, s: State, c: Command, g: string)
    requires (c.UploadFile? ==> c.numPieces >= 0) && Exec(h, s, c).ok && g in Exec(h, s, c).state.groups
    ensures var o := Exec(h, s, c).state.groups[g].owner;
      && (c.CreateGroup? && c.gid == g ==> o == c.user)
      && (c.LeaveGroup? && c.gid == g && Owns(s, g, c.user) ==>
            if exists v :: Remains(s, g, c.user, v) then Remains(s, g, c.user, o) else o == "")
      && (!(c.CreateGroup? && c.gid == g) && !(c.LeaveGroup? && c.gid == g && Owns(s, g, c.user)) ==> Owns(s, g, o))
  {
    if c.LeaveGroup? && c.gid == g && Owns(s, g, c.user) {
      var rest := s.groups[g].participants - {c.user};
      if v :| Remains(s, g, c.user, v) {
        assert v in rest;
      } else {
        assert rest == {} by {
          assert forall v :: v in rest ==> Remains(s, g, c.user, v);
        }
      }
    }
  }

  /** What is known of an account afterwards; credentials are set once and never again. */
  lemma AccountAfter(h: Digest, s: State, c: Command, n: string)
    requires (c.UploadFile? ==> c.numPieces >= 0) && Exec(h, s, c).ok && n in Exec(h, s, c).state.peers
    ensures var p := Exec(h, s, c).state.peers[n];
      && (c.CreateUser? && c.name == n ==> p == Peer("", "", c.salt, h(c.salt + c.passcode), false))
      && (!(c.CreateUser? && c.name == n) ==> n in s.peers && p.salt == s.peers[n].salt && p.hash == s.peers[n].hash)
      && (c.Login? && c.name == n ==> p.connected && p.hostip == c.ip && p.hostport == c.port)
      && ((c.Logout? || c.Disconnect?) && c.name == n ==> !p.connected && p.hostip == "" && p.hostport == "")
      && (!OnAccounts(c) || c.name != n ==> p == s.peers[n])
  {
  }

  /** What is known of a file afterwards. */
  lemma MetadataAfter(h: Digest, s: State, c: Command, k: string)
    requires (c.UploadFile? ==> c.numPieces == |c.hashes|) && Exec(h, s, c).ok && k in Exec(h, s, c).state.files
    ensures var f := Exec(h, s, c).state.files[k];
      if c.UploadFile? && FilesKey(c.gid, c.fname) == k
      then f.size == c.size && f.fullhash == c.fullhash && f.numPieces == |c.hashes| && f.pieceHashes == c.hashes
      else k in s.files && f.(seeders := {}) == s.files[k].(seeders := {})
  {
  }

  // ---------- When a command is accepted ----------

  /** The password a user gives, salted as the account says, has the digest the account keeps. */
  predicate PasswordFits(h: Digest, p: Peer, passcode: string) {
    p.salt != "" && p.hash != "" && h(p.salt + passcode) == p.hash
  }

  ghost predicate Allowed(h: Digest, s: State, c: Command) {
    match c
    case CreateUser(n, passcode, salt) => !Registered(s, n) && salt != "" && h(salt + passcode) != ""
    case Login(n, passcode, _, _) => Registered(s, n) && PasswordFits(h, s.peers[n], passcode)
    case Logout(n) => Registered(s, n)
    case Disconnect(n) => Registered(s, n) && n != ""
    case CreateGroup(g, u) => Registered(s, u) && !Has(s, GroupAtom(g))
    case JoinGroup(g, u) => Registered(s, u) && Has(s, GroupAtom(g)) && !Member(s, g, u)
    case LeaveGroup(g, u, _) => Registered(s, u) && Member(s, g, u)
    case AcceptRequest(g, a, u) => Registered(s, a) && Applicant(s, g, a) && Owns(s, g, u)
    case RejectRequest(g, a, u) => Registered(s, a) && Applicant(s, g, a) && Owns(s, g, u)
    case UploadFile(g, f, u, _, _, _, _) => Registered(s, u) && Member(s, g, u) && ValidFilename(f)
    case FileDownloaded(g, f, u) => Registered(s, u) && Member(s, g, u) && Has(s, IndexAtom(g, f))
    case StopShare(g, f, u) =>
      Registered(s, u) && Member(s, g, u) && Has(s, IndexAtom(g, f)) && Has(s, FileAtom(FilesKey(g, f)))
  }

  lemma AcceptedIff(h: Digest, s: State, c: Command)
    requires c.UploadFile? ==> c.numPieces >= 0
    ensures Exec(h, s, c).ok <==> Allowed(h, s, c)
  {
  }

  /** A file name is one that names something directly inside whatever directory it is put after. */
  lemma ValidFilenameIff(f: string)
    ensures ValidFilename(f) <==>
            && f != "" && f != "." && f != ".."
            && forall i :: 0 <= i < |f| ==> f[i] != '/' && f[i] != '\\'
  {
  }
}
