/** Where members come from when two trackers merge each other's printed states. */
module Replicas {
  import opened Text
  import opened States
  import opened Records
  import opened Commands
  import opened Effects
  import opened Dispatch
  import opened Connections
  import opened Provenance
  import Merging

  /**
   * Two trackers side by side, moment by moment; where only one of them does something the other gets a
   * blank message, which does nothing. A pulled state counts as a state message like a pushed one.
   */
  datatype Twins = Twins(runA: seq<Service>, inputsA: seq<Input>, runB: seq<Service>, inputsB: seq<Input>)

  function RunOf(p: Twins, first: bool): seq<Service> {
    if first then p.runA else p.runB
  }

  function InputsOf(p: Twins, first: bool): seq<Input> {
    if first then p.inputsA else p.inputsB
  }

  /** What clients send: the address is one, the salt is hexadecimal, and nobody registers as "-". */
  predicate ClientInput(x: Input) {
    x.Message? ==>
      && Word(x.ip) && NoSpace(x.env.salt)
      && !(|Tokens(x.raw)| == 3 && Tokens(x.raw)[0] == "create_user" && Tokens(x.raw)[1] == "-")
  }

  ghost predicate PrintedBy(p: Twins, k: nat, first: bool, text: string)
    requires k < |RunOf(p, first)|
  {
    PrintedAs(RunOf(p, first)[k].world.state, text) && |text| <= MAX_LL
  }

  /** The text was printed at one of the moments up to i. */
  ghost predicate PrintedBefore(p: Twins, i: nat, first: bool, text: string)
    requires i < |RunOf(p, first)|
  {
    exists k: nat :: k <= i && PrintedBy(p, k, first, text)
  }

  ghost predicate SoundUpTo(p: Twins, i: nat, first: bool)
    requires i < |RunOf(p, first)|
  {
    forall k: nat | k <= i :: SoundWorld(RunOf(p, first)[k].world)
  }

  /** A state message at step i carries what the other tracker printed at some moment up to then. */
  ghost predicate FromTwin(p: Twins, i: nat, first: bool)
    requires i < |InputsOf(p, first)| < |RunOf(p, !first)|
  {
    var x := InputsOf(p, first)[i];
    Args(x) != [] && Args(x)[0] == "STATE" && StatePayload(x.raw).Some? ==>
      PrintedBefore(p, i, !first, StatePayload(x.raw).value)
  }

  ghost predicate OneRun(h: Digest, p: Twins, first: bool) {
    && ServiceRun(h, RunOf(p, first), InputsOf(p, first))
    && |InputsOf(p, first)| < |RunOf(p, !first)|
    && SoundWorld(RunOf(p, first)[0].world)
    && (forall i: nat | i < |InputsOf(p, first)| :: ClientInput(InputsOf(p, first)[i]))
    && (forall i: nat | i < |InputsOf(p, first)| :: FromTwin(p, i, first))
  }

  ghost predicate TwinRun(h: Digest, p: Twins) {
    |p.runA| == |p.runB| && OneRun(h, p, true) && OneRun(h, p, false)
  }

  // ---------- Both stay sound ----------

  lemma TwinInputSound(h: Digest, p: Twins, i: nat, first: bool)
    requires HexDigest(h) && TwinRun(h, p) && i < |InputsOf(p, first)|
    requires SoundUpTo(p, i, !first)
    ensures SoundInput(InputsOf(p, first)[i])
  {
    var x := InputsOf(p, first)[i];
    assert ClientInput(x) && FromTwin(p, i, first);
    if x.Message? && Args(x) != [] && Args(x)[0] == "STATE" && StatePayload(x.raw).Some? {
      PrintedIsSound(p, i, !first, StatePayload(x.raw).value);
    }
  }

  lemma PrintedIsSound(p: Twins, i: nat, first: bool, text: string)
    requires i < |RunOf(p, first)| && SoundUpTo(p, i, first) && PrintedBefore(p, i, first, text)
    ensures StateInv(Merging.Payload(text))
  {
    var k: nat :| k <= i && PrintedBy(p, k, first, text);
    assert SoundWorld(RunOf(p, first)[k].world);
    PrintoutSound(RunOf(p, first)[k].world.state, text);
  }

  /** Replicating each other, both trackers stay sound, whatever their clients do. */
  lemma {:induction false} TwinsSound(h: Digest, p: Twins, i: nat)
    requires HexDigest(h) && TwinRun(h, p) && i < |p.runA|
    ensures SoundUpTo(p, i, true) && SoundUpTo(p, i, false)
  {
    if i > 0 {
      TwinsSound(h, p, i - 1);
      TwinSoundStep(h, p, i - 1, true);
      TwinSoundStep(h, p, i - 1, false);
      OneMomentMore(p, i, true);
      OneMomentMore(p, i, false);
    } else {
      TwinsStartSound(h, p);
    }
  }

  lemma TwinsStartSound(h: Digest, p: Twins)
    requires TwinRun(h, p) && |p.runA| > 0
    ensures SoundUpTo(p, 0, true) && SoundUpTo(p, 0, false)
  {
    assert OneRun(h, p, true) && OneRun(h, p, false);
  }

  lemma OneMomentMore(p: Twins, i: nat, first: bool)
    requires 0 < i < |RunOf(p, first)|
    requires SoundUpTo(p, i - 1, first) && SoundWorld(RunOf(p, first)[i].world)
    ensures SoundUpTo(p, i, first)
  {
  }

  lemma TwinSoundStep(h: Digest, p: Twins, i: nat, first: bool)
    requires HexDigest(h) && TwinRun(h, p) && i + 1 < |p.runA|
    requires SoundUpTo(p, i, true) && SoundUpTo(p, i, false)
    ensures SoundWorld(RunOf(p, first)[i + 1].world)
  {
    assert SoundWorld(RunOf(p, first)[i].world);
    assert OneRun(h, p, first);
    TwinInputSound(h, p, i, first);
    assert StepAt(h, RunOf(p, first), InputsOf(p, first), i);
    NextKeepsSound(h, RunOf(p, first)[i], InputsOf(p, first)[i]);
  }

  // ---------- Where listings come from ----------

  /** Who is listed in a printed state is listed in the state it was printed from. */
  lemma PrintedListing(s: State, text: string, g: string, u: string)
    requires StateInv(s) && PrintedAs(s, text) && |text| <= MAX_LL
    ensures Member(Merging.Payload(text), g, u) <==> Member(s, g, u)
    ensures Applicant(Merging.Payload(text), g, u) <==> Applicant(s, g, u)
  {
    MergeOfPrintout(s, s, text);
    WireLists(s, g, u);
  }

  lemma WireLists(s: State, g: string, u: string)
    ensures Member(Wire(s), g, u) <==> Member(s, g, u)
    ensures Applicant(Wire(s), g, u) <==> Applicant(s, g, u)
  {
  }

  /** A listing brought in by a merge was the other tracker's at some moment before. */
  lemma BroughtFromTwin(h: Digest, p: Twins, j: nat, first: bool, g: string, u: string, member: bool)
    returns (k: nat)
    requires HexDigest(h) && TwinRun(h, p) && j < |InputsOf(p, first)|
    requires BroughtIn(InputsOf(p, first), j, g, u, member)
    ensures k <= j && if member then Member(RunOf(p, !first)[k].world.state, g, u)
                      else Applicant(RunOf(p, !first)[k].world.state, g, u)
  {
    var text := StatePayload(InputsOf(p, first)[j].raw).value;
    assert OneRun(h, p, first) && FromTwin(p, j, first);
    TwinsSound(h, p, j);
    k := PrintedListed(p, j, !first, text, g, u);
  }

  lemma PrintedListed(p: Twins, i: nat, first: bool, text: string, g: string, u: string) returns (k: nat)
    requires i < |RunOf(p, first)| && SoundUpTo(p, i, first) && PrintedBefore(p, i, first, text)
    ensures k <= i
    ensures Member(Merging.Payload(text), g, u) <==> Member(RunOf(p, first)[k].world.state, g, u)
    ensures Applicant(Merging.Payload(text), g, u) <==> Applicant(RunOf(p, first)[k].world.state, g, u)
  {
    k :| k <= i && PrintedBy(p, k, first, text);
    assert SoundWorld(RunOf(p, first)[k].world);
    PrintedListing(RunOf(p, first)[k].world.state, text, g, u);
  }

  ghost predicate AppliedAt(h: Digest, p: Twins, j: nat, first: bool, g: string, u: string)
    requires |RunOf(p, first)| == |InputsOf(p, first)| + 1
  {
    j < |InputsOf(p, first)| && AppliedInPerson(h, RunOf(p, first), InputsOf(p, first), j, g, u)
  }

  ghost predicate TwinsApplied(h: Digest, p: Twins, i: nat, g: string, u: string)
    requires |p.runA| == |p.inputsA| + 1 && |p.runB| == |p.inputsB| + 1
  {
    || (exists first: bool :: |RunOf(p, first)| > 0 && Applicant(RunOf(p, first)[0].world.state, g, u))
    || (exists j: nat, first: bool :: j < i && AppliedAt(h, p, j, first, g, u))
  }

  /** Whoever is an applicant anywhere applied in person somewhere, or was one at the start. */
  lemma {:induction false} TwinApplicantOrigin(h: Digest, p: Twins, i: nat, first: bool, g: string, u: string)
    requires HexDigest(h) && TwinRun(h, p) && i < |p.runA| && Applicant(RunOf(p, first)[i].world.state, g, u)
    ensures TwinsApplied(h, p, i, g, u)
    decreases i
  {
    var run, xs := RunOf(p, first), InputsOf(p, first);
    ApplicantOrigin(h, run, xs, i, g, u);
    HasAppliedTwins(h, p, i, first, g, u);
  }

  lemma {:induction false} HasAppliedTwins(h: Digest, p: Twins, i: nat, first: bool, g: string, u: string)
    requires HexDigest(h) && TwinRun(h, p) && i < |p.runA|
    requires HasApplied(h, RunOf(p, first), InputsOf(p, first), i, g, u)
    ensures TwinsApplied(h, p, i, g, u)
    decreases i, 0
  {
    var run, xs := RunOf(p, first), InputsOf(p, first);
    if Applicant(run[0].world.state, g, u) {
    } else if j: nat :| j < i && BroughtIn(xs, j, g, u, false) {
      var k := BroughtFromTwin(h, p, j, first, g, u, false);
      TwinApplicantOrigin(h, p, k, !first, g, u);
    } else {
      var j: nat :| j < i && AppliedInPerson(h, run, xs, j, g, u);
      assert AppliedAt(h, p, j, first, g, u);
    }
  }

  /** At step j, at this tracker, a session made `u` a member. */
  ghost predicate MadeAt(h: Digest, p: Twins, j: nat, first: bool, g: string, u: string)
    requires |p.runA| == |p.inputsA| + 1 && |p.runB| == |p.inputsB| + 1
  {
    && j < |InputsOf(p, first)|
    && (Created(h, RunOf(p, first), InputsOf(p, first), j, g, u)
        || (Accepted(h, RunOf(p, first), InputsOf(p, first), j, g, u) && TwinsApplied(h, p, j, g, u)))
  }

  ghost predicate TwinsMade(h: Digest, p: Twins, i: nat, g: string, u: string)
    requires |p.runA| == |p.inputsA| + 1 && |p.runB| == |p.inputsB| + 1
  {
    || (exists first: bool :: |RunOf(p, first)| > 0 && Member(RunOf(p, first)[0].world.state, g, u))
    || (exists j: nat, first: bool :: j < i && MadeAt(h, p, j, first, g, u))
  }

  /**
   * Whoever is a member at either of two replicating trackers was one at the start at one of them, or was
   * made one by sessions: they created the group at one tracker, or applied at one and were later accepted
   * at one, by a session of the user who owned the group there. Replication itself makes nobody a member.
   */
  lemma {:induction false} TwinMemberOrigin(h: Digest, p: Twins, i: nat, first: bool, g: string, u: string)
    requires HexDigest(h) && TwinRun(h, p) && i < |p.runA| && Member(RunOf(p, first)[i].world.state, g, u)
    ensures TwinsMade(h, p, i, g, u)
    decreases i
  {
    var run, xs := RunOf(p, first), InputsOf(p, first);
    MembershipOrigin(h, run, xs, i, g, u);
    if !Member(run[0].world.state, g, u) {
      var j: nat :| j < i && Entered(h, run, xs, j, g, u);
      if BroughtIn(xs, j, g, u, true) {
        var k := BroughtFromTwin(h, p, j, first, g, u, true);
        TwinMemberOrigin(h, p, k, !first, g, u);
      } else {
        if !Created(h, run, xs, j, g, u) {
          HasAppliedTwins(h, p, j, first, g, u);
        }
        assert MadeAt(h, p, j, first, g, u);
      }
    }
  }
}
