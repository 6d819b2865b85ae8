/** Whitespace tokens, text lines and strict decimal integers. */
module Text {

  datatype Option<+T> = None | Some(value: T)

  const MAX_LL: int := 0x7fff_ffff_ffff_ffff
  const MIN_LL: int := -0x8000_0000_0000_0000
  const MAX_INT: int := 0x7fff_ffff
  const MIN_INT: int := -0x8000_0000

  /** The six characters the C locale calls white space: tab to carriage return, and the blank. */
  predicate IsSpace(c: char) {
    c == ' ' || '\t' <= c <= '\r'
  }

  predicate NoSpace(s: string) {
    forall i :: 0 <= i < |s| ==> !IsSpace(s[i])
  }

  /** A field the protocol can carry: non-empty and free of white space. */
  predicate Word(s: string) {
    s != "" && NoSpace(s)
  }

  predicate Words(ts: seq<string>) {
    forall i :: 0 <= i < |ts| ==> Word(ts[i])
  }

  /** Reads words off `s` when the characters of `cur` have already been read into the current one. */
  function Scan(cur: string, s: string): seq<string>
    decreases |s|
  {
    if s == "" then (if cur == "" then [] else [cur])
    else if !IsSpace(s[0]) then Scan(cur + [s[0]], s[1..])
    else if cur == "" then Scan("", s[1..])
    else [cur] + Scan("", s[1..])
  }

  /** What reading words with the stream operator until it fails yields. */
  function Tokens(s: string): seq<string> {
    Scan("", s)
  }

  lemma {:induction false} ScanWords(cur: string, s: string)
    requires NoSpace(cur)
    ensures Words(Scan(cur, s))
    decreases |s|
  {
    if s != "" {
      if !IsSpace(s[0]) {
        ScanWords(cur + [s[0]], s[1..]);
      } else {
        ScanWords("", s[1..]);
      }
    }
  }

  lemma {:induction false} ScanWord(cur: string, w: string, rest: string)
    requires NoSpace(w)
    ensures Scan(cur, w + rest) == Scan(cur + w, rest)
    decreases |w|
  {
    if w == "" {
      assert w + rest == rest && cur + w == cur;
    } else {
      assert (w + rest)[1..] == w[1..] + rest;
      ScanWord(cur + [w[0]], w[1..], rest);
      assert cur + [w[0]] + w[1..] == cur + w;
    }
  }

  lemma {:induction false} TokensWord(w: string, rest: string)
    requires Word(w)
    requires rest == "" || IsSpace(rest[0])
    ensures Tokens(w + rest) == [w] + Tokens(rest)
  {
    ScanWord("", w, rest);
    assert "" + w == w;
  }

  lemma {:induction false} ScanConcat(cur: string, a: string, b: string)
    requires b == "" || IsSpace(b[0]) || (if a == "" then cur == "" else IsSpace(a[|a| - 1]))
    ensures Scan(cur, a + b) == Scan(cur, a) + Tokens(b)
    decreases |a|
  {
    if a == "" {
      assert a + b == b;
    } else {
      assert (a + b)[1..] == a[1..] + b;
      if !IsSpace(a[0]) {
        ScanConcat(cur + [a[0]], a[1..], b);
      } else {
        ScanConcat("", a[1..], b);
      }
    }
  }

  /** Text split at a white-space boundary is tokenised piece by piece. */
  lemma {:induction false} TokensConcat(a: string, b: string)
    requires a == "" || b == "" || IsSpace(a[|a| - 1]) || IsSpace(b[0])
    ensures Tokens(a + b) == Tokens(a) + Tokens(b)
  {
    ScanConcat("", a, b);
  }

  /** White space in front of words, however much, makes no word. */
  lemma BlankSkipped(c: char, s: string)
    requires c in " \t\n\r\U{000b}\U{000c}"
    ensures Tokens([c] + s) == Tokens(s)
  {
    assert ([c] + s)[1..] == s;
  }

  /** Splits a command string on white space into tokens. */
  method SplitArgs(s: string) returns (tokens: seq<string>)
    ensures tokens == Tokens(s)
  {
    tokens := [];
    var pos := 0;
    while pos < |s|
      invariant 0 <= pos <= |s|
      invariant tokens + Scan("", s[pos..]) == Tokens(s)
    {
      // Skip white space, then take the run of other characters.
      if IsSpace(s[pos]) {
        pos := pos + 1;
      } else {
        var tok := "";
        while pos < |s| && !IsSpace(s[pos])
          invariant 0 <= pos <= |s|
          invariant tokens + Scan(tok, s[pos..]) == Tokens(s)
          invariant (pos < |s| && !IsSpace(s[pos])) || tok != ""
        {
          tok := tok + [s[pos]];
          pos := pos + 1;
        }
        tokens := tokens + [tok];
      }
    }
  }

  /** Words separated by single blanks. */
  function Spaced(ts: seq<string>): (s: string)
  {
    if |ts| == 0 then ""
    else if |ts| == 1 then ts[0]
    else ts[0] + " " + Spaced(ts[1..])
  }

  lemma {:induction false} SpacedAppend(ts: seq<string>, us: seq<string>)
    requires ts != [] && us != []
    ensures Spaced(ts + us) == Spaced(ts) + " " + Spaced(us)
  {
    if |ts| == 1 {
      assert (ts + us)[1..] == us;
    } else {
      assert (ts + us)[1..] == ts[1..] + us;
      SpacedAppend(ts[1..], us);
    }
  }

  /** Printing words and splitting them again gives the words back. */
  lemma {:induction false} TokensOfSpaced(ts: seq<string>)
    requires Words(ts)
    ensures Tokens(Spaced(ts)) == ts
  {
    if |ts| == 1 {
      TokensWord(ts[0], "");
      assert ts[0] + "" == ts[0];
    } else if |ts| > 1 {
      var rest := Spaced(ts[1..]);
      assert Spaced(ts) == ts[0] + (" " + rest);
      TokensWord(ts[0], " " + rest);
      assert (" " + rest)[1..] == rest;
      TokensOfSpaced(ts[1..]);
    }
  }

  /** Each word preceded by a blank, as a loop appends them to a line. */
  function Trailing(ts: seq<string>): string {
    if ts == [] then "" else " " + ts[0] + Trailing(ts[1..])
  }

  lemma {:induction false} SpacedTrailing(ts: seq<string>, us: seq<string>)
    requires ts != []
    ensures Spaced(ts + us) == Spaced(ts) + Trailing(us)
    decreases |us|
  {
    if us == [] {
      assert ts + us == ts;
      assert Spaced(ts) + "" == Spaced(ts);
    } else {
      var longer := ts + [us[0]];
      SpacedAppend(ts, [us[0]]);
      assert ts + us == longer + us[1..];
      SpacedTrailing(longer, us[1..]);
      Regroup(Spaced(ts), " ", us[0], Trailing(us[1..]));
    }
  }

  lemma Regroup(a: string, b: string, c: string, d: string)
    ensures (a + b + c) + d == a + (b + c + d)
  {
  }

  lemma {:induction false} TrailingAppend(us: seq<string>, u: string)
    ensures Trailing(us + [u]) == Trailing(us) + " " + u
  {
    if us == [] {
      assert us + [u] == [u];
      assert [u][1..] == [];
    } else {
      assert (us + [u])[1..] == us[1..] + [u];
      TrailingAppend(us[1..], u);
    }
  }

  lemma {:induction false} TrailingConcat(us: seq<string>, vs: seq<string>)
    ensures Trailing(us + vs) == Trailing(us) + Trailing(vs)
  {
    if us == [] {
      assert us + vs == vs;
    } else {
      assert (us + vs)[1..] == us[1..] + vs;
      TrailingConcat(us[1..], vs);
    }
  }

  lemma {:induction false} SpacedBounds(ts: seq<string>)
    requires Words(ts)
    ensures |ts| <= |Spaced(ts)|
    ensures forall i :: 0 <= i < |Spaced(ts)| ==> Spaced(ts)[i] == ' ' || !IsSpace(Spaced(ts)[i])
  {
    if |ts| > 1 {
      SpacedBounds(ts[1..]);
      assert Spaced(ts) == ts[0] + " " + Spaced(ts[1..]);
    }
  }

  /** Index of the first newline, or the length when there is none. */
  function LineEnd(s: string): (n: nat)
    ensures n <= |s|
    ensures forall i :: 0 <= i < n ==> s[i] != '\n'
    ensures n < |s| ==> s[n] == '\n'
  {
    if s == "" || s[0] == '\n' then 0 else 1 + LineEnd(s[1..])
  }

  lemma {:induction false} LineEndAt(s: string, e: nat)
    requires e <= |s| && OneLine(s[..e]) && (e < |s| ==> s[e] == '\n')
    ensures LineEnd(s) == e
  {
    if e > 0 {
      assert s[0] == s[..e][0];
      assert s[1..][..e - 1] == s[..e][1..];
      LineEndAt(s[1..], e - 1);
    }
  }

  /** What repeated line reads yield: a final newline does not open another line. */
  function Lines(s: string): (ls: seq<string>)
    decreases |s|
  {
    if s == "" then []
    else
      var n := LineEnd(s);
      if n == |s| then [s] else [s[..n]] + Lines(s[n + 1..])
  }

  function Unlines(ls: seq<string>): (s: string)
  {
    if ls == [] then "" else ls[0] + "\n" + Unlines(ls[1..])
  }

  lemma {:induction false} UnlinesAppend(ls: seq<string>, l: string)
    ensures Unlines(ls + [l]) == Unlines(ls) + l + "\n"
  {
    if ls == [] {
      assert ls + [l] == [l];
      assert [l][1..] == [];
    } else {
      assert (ls + [l])[1..] == ls[1..] + [l];
      UnlinesAppend(ls[1..], l);
    }
  }

  predicate OneLine(s: string) {
    forall i :: 0 <= i < |s| ==> s[i] != '\n'
  }

  lemma {:induction false} LinesOfUnlines(ls: seq<string>)
    requires forall i :: 0 <= i < |ls| ==> OneLine(ls[i])
    ensures Lines(Unlines(ls)) == ls
  {
    if ls != [] {
      var s := Unlines(ls);
      var rest := Unlines(ls[1..]);
      assert s[|ls[0]|] == '\n';
      assert forall i :: 0 <= i < |ls[0]| ==> s[i] == ls[0][i];
      assert LineEnd(s) == |ls[0]|;
      assert s[..|ls[0]|] == ls[0] && s[|ls[0]| + 1..] == rest;
      LinesOfUnlines(ls[1..]);
    }
  }

  lemma UnlinesEmpty(ls: seq<string>)
    ensures Unlines(ls) == "" <==> ls == []
  {
  }

  /** A last line without its newline is a line all the same. */
  lemma {:induction false} LinesUnended(ls: seq<string>, l: string)
    requires (forall i :: 0 <= i < |ls| ==> OneLine(ls[i])) && OneLine(l) && l != ""
    ensures Lines(Unlines(ls) + l) == ls + [l]
  {
    if ls == [] {
      assert Unlines(ls) + l == l;
      LineEndAt(l, |l|);
    } else {
      var first, rest := ls[0], Unlines(ls[1..]) + l;
      var s := Unlines(ls) + l;
      assert s == first + "\n" + rest;
      assert s[..|first|] == first && s[|first|] == '\n' && s[|first| + 1..] == rest;
      LineEndAt(s, |first|);
      LinesUnended(ls[1..], l);
      assert ls + [l] == [first] + (ls[1..] + [l]);
    }
  }

  lemma {:induction false} UnlinesLength(ls: seq<string>, k: nat)
    requires k < |ls|
    ensures |ls[k]| < |Unlines(ls)|
  {
    if k > 0 {
      UnlinesLength(ls[1..], k - 1);
    }
  }

  predicate IsDigit(c: char) {
    '0' <= c <= '9'
  }

  predicate Digits(s: string) {
    forall i :: 0 <= i < |s| ==> IsDigit(s[i])
  }

  function DigitsValue(s: string): nat
    requires Digits(s)
  {
    if s == "" then 0
    else 10 * DigitsValue(s[..|s| - 1]) + (s[|s| - 1] as int - '0' as int)
  }

  /** A complete, in-range decimal integer or nothing; one sign is accepted, leading space is not. */
  function ParseLL(s: string): (r: Option<int>)
    ensures r.Some? ==> s != "" && MIN_LL <= r.value <= MAX_LL
  {
    var signed := s != "" && (s[0] == '-' || s[0] == '+');
    var body := if signed then s[1..] else s;
    if body == "" || !Digits(body) then None
    else
      var n: int := DigitsValue(body);
      var v := if signed && s[0] == '-' then -n else n;
      if MIN_LL <= v <= MAX_LL then Some(v) else None
  }

  /** The same, narrowed to the range of `int`. */
  function ParseInt(s: string): (r: Option<int>)
    ensures r.Some? ==> MIN_INT <= r.value <= MAX_INT
  {
    match ParseLL(s)
    case Some(v) => if MIN_INT <= v <= MAX_INT then Some(v) else None
    case None => None
  }

  /** An optional sign and at least one digit, standing for `v`. */
  ghost predicate Spells(s: string, v: int) {
    exists sign: string, digits: string :: Numeral(s, v, sign, digits)
  }

  ghost predicate Numeral(s: string, v: int, sign: string, digits: string) {
    && s == sign + digits && (sign == "" || sign == "+" || sign == "-")
    && digits != "" && Digits(digits)
    && v == (if sign == "-" then -1 else 1) * DigitsValue(digits)
  }

  /** Strict parsing yields a number exactly when the whole text spells it and it is in range. */
  lemma ParseLLIff(s: string, v: int)
    ensures ParseLL(s) == Some(v) <==> Spells(s, v) && MIN_LL <= v <= MAX_LL
  {
    var signed := s != "" && (s[0] == '-' || s[0] == '+');
    var sign, body := if signed then s[..1] else "", if signed then s[1..] else s;
    assert s == sign + body;
    if ParseLL(s) == Some(v) {
      assert Numeral(s, v, sign, body);
    }
    if Spells(s, v) {
      var x, digits :| Numeral(s, v, x, digits);
      OneReading(s, x, digits);
      assert x == sign && digits == body;
    }
  }

  lemma OneReading(s: string, sign: string, digits: string)
    requires s == sign + digits && (sign == "" || sign == "+" || sign == "-") && digits != "" && Digits(digits)
    ensures if s[0] == '-' || s[0] == '+' then sign == s[..1] && digits == s[1..] else sign == "" && digits == s
  {
    if sign == "" {
      assert IsDigit(digits[0]) && s == digits;
    }
  }

  lemma ParseIntIff(s: string, v: int)
    ensures ParseInt(s) == Some(v) <==> Spells(s, v) && MIN_INT <= v <= MAX_INT
  {
    ParseLLIff(s, v);
  }

  /** Decimal text of a natural number, without leading zeros. */
  function ShowNat(n: nat): (s: string)
    ensures s != "" && Digits(s) && DigitsValue(s) == n
  {
    var d := ['0' + (n % 10) as char];
    if n < 10 then
      assert d[..0] == "";
      d
    else
      var s := ShowNat(n / 10) + d;
      assert s[..|s| - 1] == ShowNat(n / 10);
      s
  }

  function Show(n: int): (s: string)
    ensures Word(s)
  {
    if n < 0 then "-" + ShowNat(-n) else ShowNat(n)
  }

  /** Every integer in range survives printing and strict parsing. */
  lemma ParseShow(n: int)
    requires MIN_LL <= n <= MAX_LL
    ensures ParseLL(Show(n)) == Some(n)
    ensures MIN_INT <= n <= MAX_INT ==> ParseInt(Show(n)) == Some(n)
  {
    if n < 0 {
      assert Numeral(Show(n), n, "-", ShowNat(-n));
    } else {
      assert "" + ShowNat(n) == Show(n);
      assert Numeral(Show(n), n, "", ShowNat(n));
    }
    ParseLLIff(Show(n), n);
    ParseIntIff(Show(n), n);
  }
}
