/** The texts that list groups, pending requests and files, and what a reader finds in them. */
module Listings {
  import opened Text
  import opened States
  import opened Records
  import opened Commands

  const HASHES := "###############"

  const GROUPS_BANNER := HASHES + (" Available groups" + (" on the network " + HASHES))

  /** A banner, and each group on a new line. */
  function GroupsText(order: seq<string>): string {
    if order == [] then GROUPS_BANNER
    else GroupsText(order[..|order| - 1]) + ("\n" + order[|order| - 1])
  }

  /** Each applicant on a line, or a word that there is none. */
  function RequestsText(g: string, order: seq<string>): string {
    if order == [] then "------- Group ID " + g + " has no pending join requests -------" else Unlines(order)
  }

  function FileLine(s: State, g: string, f: string): string {
    if FilesKey(g, f) in s.files then
      f + " SIZE:" + Show(s.files[FilesKey(g, f)].size) + " PIECES:" + Show(s.files[FilesKey(g, f)].numPieces) + "\n"
    else ""
  }

  function FileLines(s: State, g: string, order: seq<string>): string {
    if order == [] then "" else FileLines(s, g, order[..|order| - 1]) + FileLine(s, g, order[|order| - 1])
  }

  /** A heading and a line for each file of the group, or a word that there is none. */
  function FilesText(s: State, g: string, order: seq<string>): string {
    if order == [] then "------- No files uploaded in group " + g + " -------"
    else "######## Files in Group " + g + " ########\n" + FileLines(s, g, order)
  }

  // ---------- Who may see what ----------

  predicate MaySeeRequests(s: State, g: string, u: string) {
    u in s.peers && g in s.groups && s.groups[g].owner == u
  }

  predicate MaySeeFiles(s: State, g: string, u: string) {
    g in s.groups && u in s.peers && u in s.groups[g].participants
  }

  function NamesIn(s: State, g: string): set<string> {
    if g in s.index then s.index[g] else {}
  }

  // ---------- Reading a listing ----------

  lemma {:induction false} GroupsTextLines(order: seq<string>)
    ensures GroupsText(order) + "\n" == Unlines([GROUPS_BANNER] + order)
  {
    if order == [] {
      assert [GROUPS_BANNER] + order == [GROUPS_BANNER] && [GROUPS_BANNER][1..] == [];
      assert Unlines([GROUPS_BANNER]) == GROUPS_BANNER + "\n" + "";
    } else {
      var front, g := order[..|order| - 1], order[|order| - 1];
      GroupsTextLines(front);
      UnlinesAppend([GROUPS_BANNER] + front, g);
      assert [GROUPS_BANNER] + order == ([GROUPS_BANNER] + front) + [g];
      assert GroupsText(order) + "\n" == (GroupsText(front) + "\n") + g + "\n";
    }
  }

  lemma BannerOneLine()
    ensures OneLine(GROUPS_BANNER)
  {
    assert OneLine(HASHES) && OneLine(" Available groups") && OneLine(" on the network ");
  }

  /** The lines after the banner are exactly the groups, in the order printed. */
  lemma GroupsListed(order: seq<string>)
    requires Words(order)
    ensures Lines(GroupsText(order) + "\n") == [GROUPS_BANNER] + order
  {
    GroupsTextLines(order);
    var ls := [GROUPS_BANNER] + order;
    BannerOneLine();
    forall i | 0 <= i < |ls| ensures OneLine(ls[i]) {
      if i > 0 {
        assert ls[i] == order[i - 1] && Word(order[i - 1]);
      }
    }
    LinesOfUnlines(ls);
  }

  /** The lines are exactly the applicants. */
  lemma RequestsListed(g: string, order: seq<string>)
    requires Words(order) && order != []
    ensures Lines(RequestsText(g, order)) == order
  {
    forall i | 0 <= i < |order| ensures OneLine(order[i]) {
      assert Word(order[i]);
    }
    LinesOfUnlines(order);
  }

  /** One line of a file listing, in words. */
  lemma FileLineWords(s: State, g: string, f: string)
    requires Word(f) && FilesKey(g, f) in s.files
    ensures var m := s.files[FilesKey(g, f)];
      Tokens(FileLine(s, g, f)) == [f, "SIZE:" + Show(m.size), "PIECES:" + Show(m.numPieces)]
  {
    var m := s.files[FilesKey(g, f)];
    var ts := [f, "SIZE:" + Show(m.size), "PIECES:" + Show(m.numPieces)];
    Labelled("SIZE:", Show(m.size));
    Labelled("PIECES:", Show(m.numPieces));
    assert ts[1..] == [ts[1], ts[2]] && ts[1..][1..] == [ts[2]];
    FileLineSpaced(s, g, f);
    TokensOfSpaced(ts);
    TokensConcat(Spaced(ts), "\n");
    assert Tokens("\n") == [];
  }

  lemma Labelled(tag: string, w: string)
    requires Word(tag) && Word(w)
    ensures Word(tag + w)
  {
  }

  lemma FileLineSpaced(s: State, g: string, f: string)
    requires FilesKey(g, f) in s.files
    ensures var m := s.files[FilesKey(g, f)];
      FileLine(s, g, f) == Spaced([f, "SIZE:" + Show(m.size), "PIECES:" + Show(m.numPieces)]) + "\n"
  {
    var m := s.files[FilesKey(g, f)];
    var a, b := Show(m.size), Show(m.numPieces);
    var ts := [f, "SIZE:" + a, "PIECES:" + b];
    ThreeSpaced(f, "SIZE:" + a, "PIECES:" + b);
    GluedLine(f, a, b);
  }

  lemma ThreeSpaced(a: string, b: string, c: string)
    ensures Spaced([a, b, c]) == a + " " + (b + " " + c)
  {
    var ts := [a, b, c];
    assert ts[1..] == [b, c] && [b, c][1..] == [c];
    assert Spaced([b, c]) == b + " " + Spaced([c]);
  }

  lemma GluedLine(f: string, a: string, b: string)
    ensures f + " SIZE:" + a + " PIECES:" + b + "\n"
         == f + " " + (("SIZE:" + a) + " " + ("PIECES:" + b)) + "\n"
  {
    assert " SIZE:" == " " + "SIZE:" && " PIECES:" == " " + "PIECES:";
  }

  /** Every file of the group has its line in the listing, and there is nothing else. */
  lemma {:induction false} FilesListed(s: State, g: string, order: seq<string>)
    requires Words(order)
    ensures Tokens(FileLines(s, g, order)) == Described(s, g, order)
    ensures FileLines(s, g, order) != "" ==> FileLines(s, g, order)[|FileLines(s, g, order)| - 1] == '\n'
  {
    if order != [] {
      var front, f := order[..|order| - 1], order[|order| - 1];
      FilesListed(s, g, front);
      TokensConcat(FileLines(s, g, front), FileLine(s, g, f));
      if FilesKey(g, f) in s.files {
        FileLineWords(s, g, f);
        var x, y := FileLines(s, g, front), FileLine(s, g, f);
        assert y[|y| - 1] == '\n' && (x + y)[|x + y| - 1] == y[|y| - 1];
      } else {
        assert FileLines(s, g, front) + "" == FileLines(s, g, front);
        assert Described(s, g, front) + [] == Described(s, g, front);
      }
    }
  }

  /** Name, size and piece count of each file that is there, as words. */
  function Described(s: State, g: string, order: seq<string>): seq<string> {
    if order == [] then []
    else
      var f := order[|order| - 1];
      Described(s, g, order[..|order| - 1])
      + if FilesKey(g, f) in s.files then
          [f, "SIZE:" + Show(s.files[FilesKey(g, f)].size), "PIECES:" + Show(s.files[FilesKey(g, f)].numPieces)]
        else []
  }
}
