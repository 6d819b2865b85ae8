/** The algebra of merging any payload at all, well formed or not. */
module Merging {
  import opened Text
  import opened States
  import opened Records
  import opened Commands

  /** What a payload adds, up to its first bad line. */
  ghost function Payload(text: string): State {
    Sum(ParseText(text).recs)
  }

  ghost function Merged(s: State, text: string): State {
    Join(s, Payload(text))
  }

  /** What the change flag reports. */
  ghost predicate Changed(s: State, text: string) {
    !Covers(s, Payload(text))
  }

  /** The version after a merge: one more when the text was accepted and brought something new. */
  ghost function VersionAfter(s: State, version: nat, text: string): nat {
    version + if ParseText(text).ok && Changed(s, text) then 1 else 0
  }

  /** A second application changes nothing and reports no change. */
  lemma MergeTwice(s: State, text: string)
    ensures Merged(Merged(s, text), text) == Merged(s, text)
    ensures !Changed(Merged(s, text), text)
  {
    JoinAbsorbs(s, Payload(text));
    HasJoinAll(s, Payload(text));
  }

  /** Nothing already present is removed or overwritten. */
  lemma MergeKeeps(s: State, text: string)
    ensures Extends(Merged(s, text), s)
  {
    JoinExtends(s, Payload(text));
  }

  /** The flag is set exactly when some fact is new. */
  lemma ChangedIff(s: State, text: string)
    ensures Changed(s, text) <==> exists a :: Has(Merged(s, text), a) && !Has(s, a)
  {
    HasJoinAll(s, Payload(text));
    if Changed(s, text) {
      var a :| Has(Payload(text), a) && !Has(s, a);
      assert Has(Merged(s, text), a);
    }
  }

  /**
   * A merge alters the state behind the version's back exactly when a bad line cut off a payload that
   * had something to add, or a good payload adds empty index entries and nothing else.
   */
  lemma SilentMergeIff(s: State, text: string)
    ensures Merged(s, text) != s && !(ParseText(text).ok && Changed(s, text)) <==>
            if ParseText(text).ok
            then !Changed(s, text) && !(Payload(text).index.Keys <= s.index.Keys)
            else Changed(s, text) || !(Payload(text).index.Keys <= s.index.Keys)
  {
    JoinUnchangedIff(s, Payload(text));
  }

  /** Payloads may arrive in either order: the facts present afterwards are the same. */
  lemma MergeOrder(s: State, t: string, u: string, a: Atom)
    ensures Has(Merged(Merged(s, t), u), a) <==> Has(Merged(Merged(s, u), t), a)
  {
    HasJoin(s, Payload(t), a);
    HasJoin(Merged(s, t), Payload(u), a);
    HasJoin(s, Payload(u), a);
    HasJoin(Merged(s, u), Payload(t), a);
  }

  /**
   * The whole state is independent of the order exactly when the payloads agree on the credentials, owners
   * and file metadata the tracker did not have.
   */
  lemma MergeOrderIff(s: State, t: string, u: string)
    ensures Merged(Merged(s, t), u) == Merged(Merged(s, u), t) <==> AgreeBeyond(s, Payload(t), Payload(u))
  {
    JoinOrderIff(s, Payload(t), Payload(u));
  }

  // ---------- Loading a text as a snapshot ----------

  lemma {:induction false} LastPeersKeeps(recs: seq<Record>, m: map<string, Peer>)
    ensures m.Keys <= LastPeers(recs, m).Keys
    decreases |recs|
  {
    if recs != [] {
      var r := recs[0];
      LastPeersKeeps(recs[1..], if r.UserRec? then m[r.name := Offline(r.salt, r.hash)] else m);
    }
  }

  /**
   * A load leaves an empty tracker exactly when the text has no record before its end or its first bad
   * line, whatever is reported.
   */
  lemma LoadedEmptyIff(text: string)
    ensures Restored(ParseText(text).recs) == EMPTY <==> ParseText(text).recs == []
  {
    var recs := ParseText(text).recs;
    if recs != [] {
      FirstRecordStays(recs);
    }
  }

  lemma FirstRecordStays(recs: seq<Record>)
    requires recs != []
    ensures Restored(recs) != EMPTY
  {
    var r, rest := recs[0], Sum(recs[1..]);
    match r
    case UserRec(n, salt, hash) =>
      LastPeersKeeps(recs[1..], map[n := Offline(salt, hash)]);
      assert n in Restored(recs).peers;
    case GroupRec(g, _, _, _) => assert g in Join(Single(r), rest).groups;
    case FileRec(k, _, _, _, _) => assert k in Join(Single(r), rest).files;
    case IndexRec(g, _) => assert g in Join(Single(r), rest).index;
  }

  // ---------- Particular payloads ----------

  lemma SumOfOne(r: Record)
    ensures Sum([r]) == Single(r)
  {
    JoinUnit(Single(r));
    assert [r][1..] == [];
  }

  lemma OneLineText(l: string)
    requires OneLine(l)
    ensures Lines(l + "\n") == [l]
  {
    var ls := [l];
    assert ls[1..] == [] && Unlines(ls) == l + "\n" + "";
    LinesOfUnlines(ls);
  }

  lemma TwoLines(l: string, m: string)
    ensures Unlines([l, m]) == l + "\n" + (m + "\n")
  {
    assert [l, m][1..] == [m] && [m][1..] == [];
    assert Unlines([m]) == m + "\n" + "";
    assert m + "\n" + "" == m + "\n";
  }

  lemma TwoLineText(l: string, m: string)
    requires OneLine(l) && OneLine(m)
    ensures Lines(l + "\n" + (m + "\n")) == [l, m]
  {
    TwoLines(l, m);
    LinesOfUnlines([l, m]);
  }

  lemma OneLineParses(r: Record)
    requires Clean(r) && |Line(r)| <= MAX_LL
    ensures ParseText(Line(r) + "\n") == Parsed([r], true)
    ensures Payload(Line(r) + "\n") == Single(r)
  {
    ParseOwnLine(r);
    OneLineText(Line(r));
    OneRecord(Line(r), r);
    SumOfOne(r);
  }

  lemma OneRecord(l: string, r: Record)
    requires ParseLine(Tokens(l)) == Rec(r)
    ensures ParseLines([l]) == Parsed([r], true)
  {
    assert [l][1..] == [] && [r] + [] == [r];
  }

  lemma SpacedCons(w: string, ts: seq<string>)
    requires ts != []
    ensures Spaced([w] + ts) == w + " " + Spaced(ts)
  {
    assert ([w] + ts)[1..] == ts;
  }

  lemma ThreeWords(a: string, b: string, c: string)
    ensures Spaced([a, b, c]) == a + " " + (b + " " + c)
  {
    SpacedCons(b, [c]);
    SpacedCons(a, [b, c]);
    assert [a] + [b, c] == [a, b, c] && [b] + [c] == [b, c];
  }

  const EMPTY_INDEX_RECORD := "GFILE g 0\n"

  lemma EmptyIndexLine()
    ensures Line(IndexRec("g", [])) == "GFILE g 0"
  {
    var ts := TokensOf(IndexRec("g", []));
    assert Show(0) == "0";
    assert ts == ["GFILE", "g", "0"];
    ThreeWords("GFILE", "g", "0");
  }

  lemma EmptyEntry()
    ensures Covers(EMPTY, Single(IndexRec("g", [])))
    ensures "g" in Single(IndexRec("g", [])).index
  {
    var x := Single(IndexRec("g", []));
    forall a | Has(x, a) ensures Has(EMPTY, a) {
      assert SetOf([]) == {};
    }
  }

  /** The smallest silent merge: an empty index entry appears, and no change is reported. */
  lemma EmptyIndexRecordIsSilent()
    ensures ParseText(EMPTY_INDEX_RECORD).ok
    ensures !Changed(EMPTY, EMPTY_INDEX_RECORD) && Merged(EMPTY, EMPTY_INDEX_RECORD) != EMPTY
  {
    EmptyIndexLine();
    assert EMPTY_INDEX_RECORD == Line(IndexRec("g", [])) + "\n";
    OneLineParses(IndexRec("g", []));
    EmptyEntry();
    JoinUnit(Single(IndexRec("g", [])));
  }

  const GOOD_LINE := "USER ann 5a h"

  const CUT_SHORT := GOOD_LINE + "\n" + ("BAD" + "\n")

  lemma CutShortLine()
    ensures Line(UserRec("ann", "5a", "h")) == GOOD_LINE
  {
    ThreeWords("ann", "5a", "h");
    SpacedCons("USER", ["ann", "5a", "h"]);
    assert ["USER"] + ["ann", "5a", "h"] == TokensOf(UserRec("ann", "5a", "h"));
  }

  lemma BadLine()
    ensures ParseLines(["BAD"]) == Parsed([], false)
  {
    TokensOfSpaced(["BAD"]);
  }

  lemma RecordThenBad(l: string, m: string, r: Record)
    requires ParseLine(Tokens(l)) == Rec(r) && ParseLines([m]) == Parsed([], false)
    ensures ParseLines([l, m]) == Parsed([r], false)
  {
    assert [l, m][1..] == [m] && [r] + [] == [r];
  }

  lemma GoodThenBad(l: string, r: Record)
    requires OneLine(l) && ParseLine(Tokens(l)) == Rec(r)
    ensures ParseText(l + "\n" + ("BAD" + "\n")) == Parsed([r], false)
  {
    TwoLineText(l, "BAD");
    BadLine();
    RecordThenBad(l, "BAD", r);
  }

  lemma CutShortParses()
    ensures ParseText(CUT_SHORT) == Parsed([UserRec("ann", "5a", "h")], false)
  {
    var r := UserRec("ann", "5a", "h");
    CutShortLine();
    assert |Line(r)| <= MAX_LL && Clean(r);
    ParseOwnLine(r);
    GoodThenBad(Line(r), r);
  }

  /** A bad second line: the payload is refused, no new version is counted, and its first line stays. */
  lemma RefusedPayloadLeavesItsPrefix(version: nat)
    ensures !ParseText(CUT_SHORT).ok && VersionAfter(EMPTY, version, CUT_SHORT) == version
    ensures "ann" in Merged(EMPTY, CUT_SHORT).peers
  {
    CutShortParses();
    SumOfOne(UserRec("ann", "5a", "h"));
  }

  /** The same text as a snapshot: the load fails, and the tracker is not empty. */
  lemma RefusedSnapshotIsNotEmpty()
    ensures !ParseText(CUT_SHORT).ok && "ann" in Restored(ParseText(CUT_SHORT).recs).peers
  {
    CutShortParses();
    var r := UserRec("ann", "5a", "h");
    assert [r][1..] == [];
    assert LastPeers([r], map[]) == LastPeers([], map["ann" := Offline("5a", "h")]);
  }

  const CUT_OFF := "GFILE g 3 a"

  lemma CutOffTokens()
    ensures Tokens(CUT_OFF) == ["GFILE", "g", "3"] + ["a"]
  {
    var t := ["GFILE", "g", "3", "a"];
    ThreeWords("g", "3", "a");
    SpacedCons("GFILE", ["g", "3", "a"]);
    assert ["GFILE"] + ["g", "3", "a"] == t && ["GFILE", "g", "3"] + ["a"] == t;
    assert Spaced(t) == CUT_OFF;
    TokensOfSpaced(t);
  }

  lemma OneBadLine(l: string)
    requires l != "" && OneLine(l) && ParseLine(Tokens(l)) == Bad
    ensures ParseText(l) == Parsed([], false)
  {
    LinesUnended([], l);
    assert [] + [l] == [l] && Unlines([]) + l == l;
  }

  /** A snapshot cut off inside its last line is refused. */
  lemma CutOffRefused()
    ensures ParseText(CUT_OFF) == Parsed([], false)
  {
    CutOffTokens();
    ThreeSpelled();
    ShortListRefused("g", "3", 3, ["a"]);
    OneBadLine(CUT_OFF);
  }

  lemma ThreeSpelled()
    ensures Spells("3", 3)
  {
    assert "3"[..0] == "" && DigitsValue("3") == 3;
    assert Numeral("3", 3, "", "3");
  }

  const STRANGER_OWNS := "GROUP g bob 0 0\n"

  lemma StrangerLine()
    ensures Line(GroupRec("g", "bob", [], [])) == "GROUP g bob 0 0"
  {
    assert Show(0) == "0";
    assert TokensOf(GroupRec("g", "bob", [], [])) == ["GROUP", "g", "bob", "0", "0"];
    ThreeWords("bob", "0", "0");
    SpacedCons("g", ["bob", "0", "0"]);
    SpacedCons("GROUP", ["g", "bob", "0", "0"]);
    assert ["GROUP"] + (["g"] + ["bob", "0", "0"]) == ["GROUP", "g", "bob", "0", "0"];
    assert ["g"] + ["bob", "0", "0"] == ["g", "bob", "0", "0"];
  }

  lemma StrangerUnsound()
    ensures !StateInv(Single(GroupRec("g", "bob", [], [])))
  {
    assert !GroupOk({}, Single(GroupRec("g", "bob", [], [])).groups["g"]);
  }

  /** A text that parses although its group belongs to nobody registered, let alone to a member. */
  lemma StrangerOwns()
    ensures ParseText(STRANGER_OWNS).ok && !StateInv(Payload(STRANGER_OWNS))
    ensures StateInv(EMPTY) && !StateInv(Merged(EMPTY, STRANGER_OWNS))
  {
    var r := GroupRec("g", "bob", [], []);
    StrangerLine();
    assert STRANGER_OWNS == Line(r) + "\n";
    assert Clean(r);
    OneLineParses(r);
    StrangerUnsound();
    JoinUnit(Single(r));
    EmptyInv();
  }
}
