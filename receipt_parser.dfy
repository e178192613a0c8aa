/**
 * Heuristic extraction of the merchant name, the total amount and the currency from the
 * text an on-device recogniser returns for a receipt photo. Everything here is a pure
 * function of that text. Amounts are integer cents: the money pattern always has exactly
 * two decimals, so no fractional arithmetic is needed.
 */
module ReceiptParser {
  import opened Wrappers
  import opened Strings

  // ---------------------------------------------------------------------------
  // Line normalisation: `s.replace(/\s+/g, " ").trim()`
  // ---------------------------------------------------------------------------

  /** The characters of `s` that are not white space, in order. */
  function NonSpace(s: string): string {
    if s == [] then [] else (if IsSpace(s[0]) then [] else [s[0]]) + NonSpace(s[1..])
  }

  lemma {:induction false} NonSpaceAppend(a: string, b: string)
    ensures NonSpace(a + b) == NonSpace(a) + NonSpace(b)
  {
    if a == [] {
      assert a + b == b;
    } else {
      assert (a + b)[1..] == a[1..] + b;
      NonSpaceAppend(a[1..], b);
    }
  }

  /** Every white-space character is a plain space and is followed by a non-space. */
  predicate SingleSpaced(s: string) {
    forall i :: 0 <= i < |s| && IsSpace(s[i]) ==> s[i] == ' ' && (i + 1 < |s| ==> !IsSpace(s[i + 1]))
  }

  /** What `normLine` promises: single-spaced, nothing to trim at either end. */
  predicate Normalized(s: string) {
    SingleSpaced(s) && (s != [] ==> !IsSpace(s[0]) && !IsSpace(s[|s| - 1]))
  }

  /** Drops the leading run of white space (`trimStart`); also the rest of a run matched by `\s+`. */
  function SkipSpaces(s: string): (r: string)
    ensures |r| <= |s| && r == s[|s| - |r|..]
    ensures r == [] || !IsSpace(r[0])
    ensures forall i :: 0 <= i < |s| - |r| ==> IsSpace(s[i])
    ensures NonSpace(r) == NonSpace(s)
  {
    if s != [] && IsSpace(s[0]) then
      var r := SkipSpaces(s[1..]);
      assert s[1..][|s| - 1 - |r|..] == s[|s| - |r|..];
      assert forall i :: 0 < i < |s| - |r| ==> s[1..][i - 1] == s[i];
      r
    else s
  }

  /** Drops the trailing run of white space (`trimEnd`). */
  function TrimEnd(s: string): (r: string)
    ensures |r| <= |s| && r == s[..|r|]
    ensures r == [] || !IsSpace(r[|r| - 1])
    ensures forall i :: |r| <= i < |s| ==> IsSpace(s[i])
    ensures NonSpace(r) == NonSpace(s)
  {
    if s != [] && IsSpace(s[|s| - 1]) then
      assert s == s[..|s| - 1] + [s[|s| - 1]];
      NonSpaceAppend(s[..|s| - 1], [s[|s| - 1]]);
      TrimEnd(s[..|s| - 1])
    else s
  }

  /** `s.replace(/\s+/g, " ")`: every maximal run of white space becomes one space. */
  function CollapseSpaces(s: string): (r: string)
    ensures SingleSpaced(r)
    ensures r == [] <==> s == []
    ensures s != [] ==> r[0] == if IsSpace(s[0]) then ' ' else s[0]
    ensures NonSpace(r) == NonSpace(s)
    decreases |s|
  {
    if s == [] then []
    else if IsSpace(s[0]) then
      var rest := CollapseSpaces(SkipSpaces(s));
      assert NonSpace(" " + rest) == NonSpace(rest) by {
        assert (" " + rest)[1..] == rest;
      }
      " " + rest
    else
      var rest := CollapseSpaces(s[1..]);
      assert NonSpace([s[0]] + rest) == [s[0]] + NonSpace(rest) by {
        assert ([s[0]] + rest)[1..] == rest;
      }
      [s[0]] + rest
  }

  lemma SingleSpacedSlice(s: string, a: nat, b: nat)
    requires a <= b <= |s| && SingleSpaced(s)
    ensures SingleSpaced(s[a..b])
  {
  }

  /** `normLine(s)`. */
  function NormLine(s: string): (r: string)
    ensures Normalized(r)
    ensures NonSpace(r) == NonSpace(s)
  {
    var collapsed := CollapseSpaces(s);
    var front := SkipSpaces(collapsed);
    SingleSpacedSlice(collapsed, |collapsed| - |front|, |collapsed|);
    var r := TrimEnd(front);
    SingleSpacedSlice(front, 0, |r|);
    assert r != [] ==> r[0] == front[0];
    r
  }

  /** A single-spaced string is left alone by the collapsing step. */
  lemma {:induction false} CollapseSingleSpaced(s: string)
    requires SingleSpaced(s)
    ensures CollapseSpaces(s) == s
    decreases |s|
  {
    if s != [] {
      SingleSpacedSlice(s, 1, |s|);
      if IsSpace(s[0]) {
        assert SkipSpaces(s) == s[1..];
        CollapseSingleSpaced(s[1..]);
        assert s == " " + s[1..];
      } else {
        CollapseSingleSpaced(s[1..]);
        assert s == [s[0]] + s[1..];
      }
    }
  }

  /** Normalising twice is normalising once. */
  lemma NormLineIdempotent(s: string)
    ensures NormLine(NormLine(s)) == NormLine(s)
  {
    var n := NormLine(s);
    CollapseSingleSpaced(n);
    assert SkipSpaces(n) == n;
    assert TrimEnd(n) == n;
  }

  // The same result, stated through words: the maximal runs of non-space characters.

  predicate NoSpaceIn(w: string) {
    forall i :: 0 <= i < |w| ==> !IsSpace(w[i])
  }

  /** The length of the word `s` starts with (zero when it starts with white space). */
  function WordLen(s: string): (n: nat)
    ensures n <= |s|
    ensures NoSpaceIn(s[..n])
    ensures n == |s| || IsSpace(s[n])
  {
    if s == [] || IsSpace(s[0]) then 0
    else
      var m := WordLen(s[1..]);
      assert s[..m + 1] == [s[0]] + s[1..][..m];
      m + 1
  }

  /** The words of `s`, in order: every maximal run of characters that are not white space. */
  function Words(s: string): (ws: seq<string>)
    ensures forall k :: 0 <= k < |ws| ==> ws[k] != "" && NoSpaceIn(ws[k])
    decreases |s|
  {
    if s == [] then []
    else if IsSpace(s[0]) then Words(s[1..])
    else
      var n := WordLen(s);
      [s[..n]] + Words(s[n..])
  }

  /** `words.join(" ")`. */
  function Unwords(ws: seq<string>): (r: string)
    ensures (forall k :: 0 <= k < |ws| ==> ws[k] != "" && NoSpaceIn(ws[k])) && ws != [] ==>
              r != [] && !IsSpace(r[0]) && !IsSpace(r[|r| - 1])
  {
    if ws == [] then ""
    else if |ws| == 1 then ws[0]
    else
      var rest := Unwords(ws[1..]);
      assert forall k :: 0 <= k < |ws| - 1 ==> ws[1..][k] == ws[k + 1];
      ws[0] + " " + rest
  }

  lemma {:induction false} WordsSkipSpaces(s: string)
    ensures Words(SkipSpaces(s)) == Words(s)
    decreases |s|
  {
    if s != [] && IsSpace(s[0]) {
      WordsSkipSpaces(s[1..]);
    }
  }

  lemma {:induction false} NoWordsAllSpace(s: string)
    requires Words(s) == []
    ensures forall i :: 0 <= i < |s| ==> IsSpace(s[i])
    decreases |s|
  {
    if s != [] {
      NoWordsAllSpace(s[1..]);
      forall i | 0 < i < |s| ensures IsSpace(s[i]) {
        assert s[i] == s[1..][i - 1];
      }
    }
  }

  /** A character before another non-space joins the first word of the rest. */
  lemma WordsGlue(s: string)
    requires |s| >= 2 && !IsSpace(s[0]) && !IsSpace(s[1])
    ensures Words(s[1..]) != []
    ensures Words(s) == [[s[0]] + Words(s[1..])[0]] + Words(s[1..])[1..]
  {
    var t := s[1..];
    var m := WordLen(t);
    assert WordLen(s) == m + 1;
    assert s[..m + 1] == [s[0]] + t[..m];
    assert s[m + 1..] == t[m..];
  }

  /** A character before white space is a word of its own. */
  lemma WordsSingle(s: string)
    requires |s| >= 1 && !IsSpace(s[0]) && (|s| == 1 || IsSpace(s[1]))
    ensures Words(s) == [[s[0]]] + Words(s[1..])
  {
    assert WordLen(s) == 1;
    assert s[..1] == [s[0]];
  }

  lemma UnwordsGlue(c: char, ws: seq<string>)
    requires ws != []
    ensures Unwords([[c] + ws[0]] + ws[1..]) == [c] + Unwords(ws)
  {
    var w := [c] + ws[0];
    var vs := [w] + ws[1..];
    AppendTail([w], ws[1..]);
    assert [w][1..] + ws[1..] == ws[1..];
    if |ws| > 1 {
      AppendAssoc([c], ws[0], " " + Unwords(ws[1..]));
      AppendAssoc(ws[0], " ", Unwords(ws[1..]));
      AppendAssoc(w, " ", Unwords(ws[1..]));
    }
  }

  lemma UnwordsCons(w: string, ws: seq<string>)
    requires ws != []
    ensures Unwords([w] + ws) == w + " " + Unwords(ws)
  {
    assert ([w] + ws)[1..] == ws;
  }

  /** The words of `s` joined by single spaces, with one more space where `s` begins or ends with white space. */
  function SpacedWords(s: string): string {
    if Words(s) == [] then (if s == [] then "" else " ")
    else (if IsSpace(s[0]) then " " else "") + Unwords(Words(s)) + (if IsSpace(s[|s| - 1]) then " " else "")
  }

  /** Collapsing keeps the words and puts exactly one space wherever white space stood. */
  lemma {:induction false} CollapseSpacesWords(s: string)
    ensures CollapseSpaces(s) == SpacedWords(s)
    decreases |s|
  {
    if s == [] {
    } else if IsSpace(s[0]) {
      SpacedSkip(s);
      CollapseSpacesWords(SkipSpaces(s));
    } else {
      SpacedCons(s);
      CollapseSpacesWords(s[1..]);
    }
  }

  /** White space at the front becomes the one leading space. */
  lemma SpacedSkip(s: string)
    requires s != [] && IsSpace(s[0])
    ensures SpacedWords(s) == " " + SpacedWords(SkipSpaces(s))
  {
    WordsSkipSpaces(s);
    if SkipSpaces(s) == [] {
      assert SpacedWords(s) == " ";
      assert SpacedWords(SkipSpaces(s)) == "";
      assert " " + "" == " ";
    } else {
      SpacedAfterSpaces(s);
      AppendAssoc(" ", Unwords(Words(s)), if IsSpace(s[|s| - 1]) then " " else "");
    }
  }

  lemma SpacedAfterSpaces(s: string)
    requires s != [] && IsSpace(s[0]) && SkipSpaces(s) != [] && Words(SkipSpaces(s)) == Words(s)
    ensures var u := Unwords(Words(s));
            var tail := if IsSpace(s[|s| - 1]) then " " else "";
            && SpacedWords(SkipSpaces(s)) == u + tail
            && SpacedWords(s) == (" " + u) + tail
  {
    var t := SkipSpaces(s);
    assert Words(t) != [] by {
      assert Words(t) == [t[..WordLen(t)]] + Words(t[WordLen(t)..]);
    }
    assert t[|t| - 1] == s[|s| - 1];
    SpacedPlain(t);
    SpacedWordsSome(s);
  }

  /** Text that starts with a word gets no leading space. */
  lemma SpacedPlain(s: string)
    requires Words(s) != [] && s != [] && !IsSpace(s[0])
    ensures SpacedWords(s) == Unwords(Words(s)) + (if IsSpace(s[|s| - 1]) then " " else "")
  {
    SpacedWordsSome(s);
    OptionalSpaces(Unwords(Words(s)), false, IsSpace(s[|s| - 1]));
  }

  /** A character that is not white space stays in front of the rest's spaced words. */
  lemma SpacedCons(s: string)
    requires s != [] && !IsSpace(s[0])
    ensures SpacedWords(s) == [s[0]] + SpacedWords(s[1..])
  {
    if |s| == 1 {
      SpacedOne(s);
    } else if !IsSpace(s[1]) {
      SpacedGlue(s);
    } else {
      SpacedWordEnd(s);
    }
  }

  lemma SpacedOne(s: string)
    requires |s| == 1 && !IsSpace(s[0])
    ensures SpacedWords(s) == [s[0]] + SpacedWords(s[1..])
  {
    WordsSingle(s);
    assert Words(s) == [[s[0]]];
    SpacedPlain(s);
    assert [s[0]] + "" == [s[0]];
  }

  lemma SpacedGlue(s: string)
    requires |s| >= 2 && !IsSpace(s[0]) && !IsSpace(s[1])
    ensures SpacedWords(s) == [s[0]] + SpacedWords(s[1..])
  {
    var t := s[1..];
    WordsGlue(s);
    var u := Unwords(Words(t));
    var tail := if IsSpace(s[|s| - 1]) then " " else "";
    assert t[|t| - 1] == s[|s| - 1];
    SpacedPlain(t);
    SpacedPlain(s);
    UnwordsGlue(s[0], Words(t));
    assert SpacedWords(s) == ([s[0]] + u) + tail;
  }

  lemma SpacedWordEnd(s: string)
    requires |s| >= 2 && !IsSpace(s[0]) && IsSpace(s[1])
    ensures SpacedWords(s) == [s[0]] + SpacedWords(s[1..])
  {
    var t := s[1..];
    WordsSingle(s);
    SpacedPlain(s);
    var ws := Words(t);
    if ws == [] {
      NoWordsAllSpace(t);
      assert IsSpace(s[|s| - 1]) by { assert s[|s| - 1] == t[|t| - 1]; }
      assert Words(s) == [[s[0]]];
      assert SpacedWords(t) == " ";
    } else {
      var u := Unwords(ws);
      var tail := if IsSpace(s[|s| - 1]) then " " else "";
      assert t[|t| - 1] == s[|s| - 1];
      SpacedWordsSome(t);
      assert SpacedWords(t) == " " + u + tail;
      UnwordsCons([s[0]], ws);
      assert SpacedWords(s) == [s[0]] + " " + u + tail;
    }
  }

  lemma SkipOneSpace(x: string)
    requires x != [] && !IsSpace(x[0])
    ensures SkipSpaces(" " + x) == x
    ensures SkipSpaces(x) == x
  {
    assert (" " + x)[1..] == x;
  }

  lemma TrimOneSpace(x: string)
    requires x != [] && !IsSpace(x[|x| - 1])
    ensures TrimEnd(x + " ") == x
    ensures TrimEnd(x) == x
  {
    assert (x + " ")[..|x|] == x;
  }

  lemma NormLineSteps(s: string)
    ensures NormLine(s) == TrimEnd(SkipSpaces(CollapseSpaces(s)))
  {
  }

  /** Trimming the collapsed text leaves the joined words. */
  lemma TrimSpacedWords(s: string)
    ensures TrimEnd(SkipSpaces(SpacedWords(s))) == Unwords(Words(s))
  {
    if Words(s) != [] {
      var u := Unwords(Words(s));
      SpacedWordsSome(s);
      TrimSpaced(u, s[0], s[|s| - 1]);
    } else if s != [] {
      assert SpacedWords(s) == " ";
      assert SkipSpaces(" ") == "";
    }
  }

  lemma SpacedWordsSome(s: string)
    requires Words(s) != []
    ensures s != []
    ensures var u := Unwords(Words(s));
            && u != [] && !IsSpace(u[0]) && !IsSpace(u[|u| - 1])
            && SpacedWords(s) == (if IsSpace(s[0]) then " " else "") + u + (if IsSpace(s[|s| - 1]) then " " else "")
  {
  }

  /** One optional space on each side of `u` is trimmed away. */
  lemma TrimSpaced(u: string, first: char, last: char)
    requires u != [] && !IsSpace(u[0]) && !IsSpace(u[|u| - 1])
    ensures TrimEnd(SkipSpaces((if IsSpace(first) then " " else "") + u + (if IsSpace(last) then " " else ""))) == u
  {
    var x := u + (if IsSpace(last) then " " else "");
    OptionalSpaces(u, IsSpace(first), IsSpace(last));
    SkipOneSpace(x);
    TrimOneSpace(u);
  }

  lemma OptionalSpaces(u: string, lead: bool, trail: bool)
    ensures (if lead then " " else "") + u + (if trail then " " else "") ==
            if lead then " " + (u + (if trail then " " else "")) else u + (if trail then " " else "")
    ensures !trail ==> u + (if trail then " " else "") == u
  {
  }

  /** `normLine(s)` is the words of `s` joined by single spaces. */
  lemma NormLineJoinsWords(s: string)
    ensures NormLine(s) == Unwords(Words(s))
  {
    NormLineSteps(s);
    CollapseSpacesWords(s);
    TrimSpacedWords(s);
  }

  // ---------------------------------------------------------------------------
  // Lines: `(fullText || "").split("\n").map(normLine).filter(Boolean)`
  // ---------------------------------------------------------------------------

  lemma NoNewlineBefore(s: string, n: nat)
    requires n <= |s| && forall j :: 0 <= j < n ==> !OccursAt(s, "\n", j)
    ensures '\n' !in s[..n]
  {
    forall j | 0 <= j < n ensures s[j] != '\n' {
      assert !OccursAt(s, "\n", j) && s[j..j + 1] == [s[j]];
    }
  }

  /** `s.split("\n")`. */
  function SplitLines(s: string): (r: seq<string>)
    ensures |r| >= 1
    ensures forall i :: 0 <= i < |r| ==> '\n' !in r[i]
    decreases |s|
  {
    match IndexOf(s, "\n", 0)
    case None =>
      NoNewlineBefore(s, |s|);
      [s]
    case Some(i) =>
      NoNewlineBefore(s, i);
      [s[..i]] + SplitLines(s[i + 1..])
  }

  /** `lines.join("\n")`. */
  function JoinLines(lines: seq<string>): string
    requires |lines| >= 1
  {
    if |lines| == 1 then lines[0] else lines[0] + "\n" + JoinLines(lines[1..])
  }

  /** Splitting loses nothing: joining the pieces gives the text back. */
  lemma {:induction false} SplitJoin(s: string)
    ensures JoinLines(SplitLines(s)) == s
    decreases |s|
  {
    match IndexOf(s, "\n", 0)
    case None =>
    case Some(i) =>
      SplitJoin(s[i + 1..]);
      JoinCons(s[..i], SplitLines(s[i + 1..]));
      assert s[i..i + 1] == "\n";
      SplitAround(s, i);
  }

  lemma JoinCons(line: string, rest: seq<string>)
    requires |rest| >= 1
    ensures JoinLines([line] + rest) == line + "\n" + JoinLines(rest)
  {
    AppendTail([line], rest);
    assert ([line] + rest)[1..] == rest;
  }

  /** `.map(normLine).filter(Boolean)`. */
  function NormalizedLines(raw: seq<string>): (r: seq<string>)
    ensures |r| <= |raw|
    ensures forall i :: 0 <= i < |r| ==> r[i] != "" && Normalized(r[i])
  {
    NormalizedForms(raw);
    NonBlank(MapAll(NormLine, raw))
  }

  lemma NormalizedForms(raw: seq<string>)
    ensures forall l :: l in MapAll(NormLine, raw) ==> Normalized(l)
  {
    var ns := MapAll(NormLine, raw);
    forall l | l in ns ensures Normalized(l) {
      var j :| 0 <= j < |ns| && ns[j] == l;
      assert l == NormLine(raw[j]);
    }
  }

  /** `.map(f)`. */
  function MapAll(f: string -> string, raw: seq<string>): (ns: seq<string>)
    ensures |ns| == |raw|
    ensures forall i :: 0 <= i < |raw| ==> ns[i] == f(raw[i])
  {
    seq(|raw|, i requires 0 <= i < |raw| => f(raw[i]))
  }

  lemma MapAllAppend(f: string -> string, a: seq<string>, b: seq<string>)
    ensures MapAll(f, a + b) == MapAll(f, a) + MapAll(f, b)
  {
    assert forall i :: 0 <= i < |a| + |b| ==> MapAll(f, a + b)[i] == (MapAll(f, a) + MapAll(f, b))[i];
  }

  lemma MapAllSingle(f: string -> string, x: string)
    ensures MapAll(f, [x]) == [f(x)]
  {
  }

  lemma MapAllMembers(f: string -> string, raw: seq<string>)
    ensures forall l :: l in MapAll(f, raw) <==> exists i :: 0 <= i < |raw| && f(raw[i]) == l
  {
    var ns := MapAll(f, raw);
    forall l ensures l in ns <==> exists i :: 0 <= i < |raw| && f(raw[i]) == l {
      if l in ns {
        var i :| 0 <= i < |ns| && ns[i] == l;
      }
      if exists i :: 0 <= i < |raw| && f(raw[i]) == l {
        var i :| 0 <= i < |raw| && f(raw[i]) == l;
        assert ns[i] == l;
      }
    }
  }

  /** `.filter(Boolean)` on strings: the non-empty ones, in order. */
  function NonBlank(ls: seq<string>): (r: seq<string>)
    ensures |r| <= |ls|
    ensures forall i :: 0 <= i < |r| ==> r[i] != "" && r[i] in ls
  {
    if ls == [] then []
    else
      var rest := NonBlank(ls[1..]);
      assert forall x :: x in ls[1..] ==> x in ls;
      (if ls[0] == "" then [] else [ls[0]]) + rest
  }

  lemma {:induction false} NonBlankMembers(ls: seq<string>)
    ensures forall l :: l in NonBlank(ls) <==> l != "" && l in ls
  {
    if ls != [] {
      NonBlankMembers(ls[1..]);
      assert ls == [ls[0]] + ls[1..];
    }
  }

  lemma {:induction false} NonBlankAppend(a: seq<string>, b: seq<string>)
    ensures NonBlank(a + b) == NonBlank(a) + NonBlank(b)
  {
    if a == [] {
      assert a + b == b;
    } else {
      var k: seq<string> := if a[0] == "" then [] else [a[0]];
      AppendTail(a, b);
      NonBlankAppend(a[1..], b);
      AppendAssoc(k, NonBlank(a[1..]), NonBlank(b));
    }
  }

  /** A line survives exactly when it is the non-blank normal form of some raw line. */
  lemma NormalizedLinesMembers(raw: seq<string>)
    ensures forall l :: l in NormalizedLines(raw) <==> l != "" && exists i :: 0 <= i < |raw| && NormLine(raw[i]) == l
  {
    NonBlankMembers(MapAll(NormLine, raw));
    MapAllMembers(NormLine, raw);
  }

  /** Normalising keeps the order of the lines: it distributes over concatenation. */
  lemma NormalizedLinesAppend(a: seq<string>, b: seq<string>)
    ensures NormalizedLines(a + b) == NormalizedLines(a) + NormalizedLines(b)
  {
    MapAllAppend(NormLine, a, b);
    NonBlankAppend(MapAll(NormLine, a), MapAll(NormLine, b));
  }

  /** A single line survives, normalised, exactly when it is not blank. */
  lemma NormalizedLine(line: string)
    ensures NormalizedLines([line]) == if NormLine(line) == "" then [] else [NormLine(line)]
  {
    MapAllSingle(NormLine, line);
    NonBlankSingle(NormLine(line));
  }

  lemma NonBlankSingle(x: string)
    ensures NonBlank([x]) == if x == "" then [] else [x]
  {
    assert [x][1..] == [];
  }

  /** A line feed is white space, so a normalised line holds none. */
  lemma NormalizedHaveNoNewline(ls: seq<string>)
    requires forall i :: 0 <= i < |ls| ==> Normalized(ls[i])
    ensures forall i :: 0 <= i < |ls| ==> '\n' !in ls[i]
  {
    forall i, j | 0 <= i < |ls| && 0 <= j < |ls[i]| ensures ls[i][j] != '\n' {
      assert Normalized(ls[i]);
    }
  }

  /** The non-blank, normalised lines of the recognised text. */
  function Lines(fullText: string): (r: seq<string>)
    ensures forall i :: 0 <= i < |r| ==> r[i] != "" && Normalized(r[i]) && '\n' !in r[i]
  {
    var r := NormalizedLines(SplitLines(fullText));
    NormalizedHaveNoNewline(r);
    r
  }

  // ---------------------------------------------------------------------------
  // Money: `raw.match(/(\d{1,3}(?:[’'\s]\d{3})*(?:[.,]\d{2}))/)`
  // ---------------------------------------------------------------------------

  /** The thousands separators `[’'\s]`. */
  predicate IsGroupSep(c: char) {
    c == '’' || c == '\'' || IsSpace(c)
  }

  predicate AllDigits(s: string) {
    forall i :: 0 <= i < |s| ==> IsDigit(s[i])
  }

  /** `(?:[’'\s]\d{3})` at position `p`. */
  predicate GroupAt(s: string, p: nat) {
    p + 4 <= |s| && IsGroupSep(s[p]) && IsDigit(s[p + 1]) && IsDigit(s[p + 2]) && IsDigit(s[p + 3])
  }

  /** `(?:[.,]\d{2})` at position `p`. */
  predicate DecimalsAt(s: string, p: nat) {
    p + 3 <= |s| && (s[p] == '.' || s[p] == ',') && IsDigit(s[p + 1]) && IsDigit(s[p + 2])
  }

  /** `s[p..q]` is a run of whole separator groups. */
  predicate GroupsFrom(s: string, p: nat, q: nat)
    requires p <= q
    decreases q - p
  {
    p == q || (p + 4 <= q && GroupAt(s, p) && GroupsFrom(s, p + 4, q))
  }

  /** `s[i..e]` is an amount whose leading digit run has length `k`. */
  predicate AmountWithLead(s: string, i: nat, e: nat, k: nat) {
    1 <= k <= 3 && i + k + 3 <= e <= |s| && AllDigits(s[i..i + k])
    && GroupsFrom(s, i + k, e - 3) && DecimalsAt(s, e - 3)
  }

  /** The language of the money pattern, stated declaratively: `s[i..e]` is one amount. */
  predicate AmountSpan(s: string, i: nat, e: nat) {
    AmountWithLead(s, i, e, 1) || AmountWithLead(s, i, e, 2) || AmountWithLead(s, i, e, 3)
  }

  /** The matcher after the leading digits: the greedy star tries one more group before the decimals. */
  function GroupsThenDecimals(s: string, p: nat): (r: Option<nat>)
    ensures r.Some? ==> p + 3 <= r.value <= |s| && GroupsFrom(s, p, r.value - 3) && DecimalsAt(s, r.value - 3)
    decreases |s| - p
  {
    if GroupAt(s, p) then
      match GroupsThenDecimals(s, p + 4)
      case Some(e) => Some(e)
      case None => if DecimalsAt(s, p) then Some(p + 3) else None
    else if DecimalsAt(s, p) then Some(p + 3)
    else None
  }

  /** If any run of groups followed by decimals starts at `p`, the greedy matcher finds one. */
  lemma {:induction false} GroupsThenDecimalsComplete(s: string, p: nat, q: nat)
    requires p <= q && GroupsFrom(s, p, q) && DecimalsAt(s, q)
    ensures GroupsThenDecimals(s, p).Some?
    decreases q - p
  {
    if p < q {
      GroupsThenDecimalsComplete(s, p + 4, q);
    }
  }

  /** `\d{1,3}` is greedy: try `k` leading digits, then fewer. */
  function LeadThenRest(s: string, i: nat, k: nat): (r: Option<nat>)
    requires k <= 3
    ensures r.Some? ==> exists k' :: 1 <= k' <= k && AmountWithLead(s, i, r.value, k')
    decreases k
  {
    if k == 0 then None
    else if i + k <= |s| && AllDigits(s[i..i + k]) then
      match GroupsThenDecimals(s, i + k)
      case Some(e) => assert AmountWithLead(s, i, e, k); Some(e)
      case None => LeadThenRest(s, i, k - 1)
    else LeadThenRest(s, i, k - 1)
  }

  lemma {:induction false} LeadThenRestComplete(s: string, i: nat, e: nat, k: nat, k': nat)
    requires k <= 3 && 1 <= k' <= k && AmountWithLead(s, i, e, k')
    ensures LeadThenRest(s, i, k).Some?
    decreases k
  {
    if k == k' {
      GroupsThenDecimalsComplete(s, i + k, e - 3);
    } else if i + k <= |s| && AllDigits(s[i..i + k]) && GroupsThenDecimals(s, i + k).Some? {
    } else {
      LeadThenRestComplete(s, i, e, k - 1, k');
    }
  }

  /** The backtracking matcher anchored at `i`: the end of the first match it accepts. */
  function MatchAt(s: string, i: nat): (r: Option<nat>)
    ensures r.Some? ==> AmountSpan(s, i, r.value)
  {
    LeadThenRest(s, i, 3)
  }

  /** The anchored matcher fails only where no amount starts. */
  lemma MatchAtComplete(s: string, i: nat, e: nat)
    requires AmountSpan(s, i, e)
    ensures MatchAt(s, i).Some?
  {
    if AmountWithLead(s, i, e, 1) {
      LeadThenRestComplete(s, i, e, 3, 1);
    } else if AmountWithLead(s, i, e, 2) {
      LeadThenRestComplete(s, i, e, 3, 2);
    } else {
      LeadThenRestComplete(s, i, e, 3, 3);
    }
  }

  /** The unanchored search: the leftmost start at or after `from` where the matcher succeeds. */
  function FindAmount(s: string, from: nat): (r: Option<(nat, nat)>)
    ensures r.Some? ==> from <= r.value.0 && MatchAt(s, r.value.0) == Some(r.value.1)
    ensures r.Some? ==> forall j :: from <= j < r.value.0 ==> MatchAt(s, j).None?
    ensures r.None? ==> forall j :: from <= j <= |s| ==> MatchAt(s, j).None?
    decreases |s| - from
  {
    if from > |s| then None
    else match MatchAt(s, from)
      case Some(e) => Some((from, e))
      case None => FindAmount(s, from + 1)
  }

  /** `.replace(/[’'\s]/g, "")`. */
  function StripGroupSeps(s: string): (r: string)
    ensures |r| <= |s|
    ensures forall i :: 0 <= i < |r| ==> !IsGroupSep(r[i])
  {
    if s == [] then []
    else
      var rest := StripGroupSeps(s[1..]);
      if IsGroupSep(s[0]) then rest else [s[0]] + rest
  }

  lemma {:induction false} StripGroupSepsAppend(a: string, b: string)
    ensures StripGroupSeps(a + b) == StripGroupSeps(a) + StripGroupSeps(b)
  {
    if a == [] {
      assert a + b == b;
    } else {
      assert (a + b)[1..] == a[1..] + b;
      StripGroupSepsAppend(a[1..], b);
    }
  }

  lemma {:induction false} StripDigits(d: string)
    requires AllDigits(d)
    ensures StripGroupSeps(d) == d
  {
    if d != [] {
      StripDigits(d[1..]);
    }
  }

  /** Stripping a run of groups leaves only its digits. */
  lemma {:induction false} StripGroups(s: string, p: nat, q: nat)
    requires p <= q <= |s| && GroupsFrom(s, p, q)
    ensures AllDigits(StripGroupSeps(s[p..q]))
    decreases q - p
  {
    if p < q {
      StripGroups(s, p + 4, q);
      assert s[p..q] == [s[p]] + s[p + 1..p + 4] + s[p + 4..q];
      StripGroupSepsAppend([s[p]] + s[p + 1..p + 4], s[p + 4..q]);
      StripGroupSepsAppend([s[p]], s[p + 1..p + 4]);
      StripDigits(s[p + 1..p + 4]);
      assert StripGroupSeps([s[p]]) == [];
    } else {
      assert s[p..q] == [];
    }
  }

  /** The text handed to `Number`: separators stripped, the first `,` read as the decimal point. */
  function Cleaned(m: string): (r: string)
    ensures var t := StripGroupSeps(m);
            && |r| == |t|
            && forall i :: 0 <= i < |t| ==> r[i] == if t[i] == ',' && ',' !in t[..i] then '.' else t[i]
    ensures forall i :: 0 <= i < |r| ==> !IsGroupSep(r[i])
  {
    ReplaceFirstChar(StripGroupSeps(m), ',', '.');
    ReplaceFirst(StripGroupSeps(m), ",", ".")
  }

  /** Decimal value of a digit string. */
  function DigitsValue(d: string): (r: nat)
    requires AllDigits(d)
  {
    if d == [] then 0 else DigitsValue(d[..|d| - 1]) * 10 + (d[|d| - 1] as int - '0' as int)
  }

  /** `Number(c)` in cents, for a literal of the shape `<digits>.<two digits>`. */
  predicate IsDecimalLiteral(c: string) {
    |c| >= 4 && AllDigits(c[..|c| - 3]) && c[|c| - 3] == '.' && AllDigits(c[|c| - 2..])
  }

  function LiteralCents(c: string): (r: nat)
    requires IsDecimalLiteral(c)
  {
    DigitsValue(c[..|c| - 3]) * 100 + DigitsValue(c[|c| - 2..])
  }

  /** Whatever amount the pattern matched, cleaning it leaves a plain decimal literal. */
  lemma CleanedIsLiteral(s: string, i: nat, e: nat)
    requires AmountSpan(s, i, e)
    ensures IsDecimalLiteral(Cleaned(s[i..e]))
  {
    if AmountWithLead(s, i, e, 1) {
      CleanedIsLiteralWithLead(s, i, e, 1);
    } else if AmountWithLead(s, i, e, 2) {
      CleanedIsLiteralWithLead(s, i, e, 2);
    } else {
      CleanedIsLiteralWithLead(s, i, e, 3);
    }
  }

  lemma CleanedIsLiteralWithLead(s: string, i: nat, e: nat, k: nat)
    requires AmountWithLead(s, i, e, k)
    ensures IsDecimalLiteral(Cleaned(s[i..e]))
  {
    var intPart := s[i..i + k] + StripGroupSeps(s[i + k..e - 3]);
    StrippedAmount(s, i, e, k);
    DecimalPointReplaced(intPart, s[e - 3], s[e - 2..e]);
    LiteralShape(intPart, s[e - 2..e]);
  }

  lemma LiteralShape(intPart: string, frac: string)
    requires |intPart| >= 1 && AllDigits(intPart) && |frac| == 2 && AllDigits(frac)
    ensures IsDecimalLiteral(intPart + "." + frac)
  {
    var c := intPart + "." + frac;
    assert c[..|c| - 3] == intPart && c[|c| - 2..] == frac;
  }

  lemma AmountParts(s: string, i: nat, e: nat, k: nat)
    requires i + k + 3 <= e <= |s|
    ensures s[i..e] == s[i..i + k] + s[i + k..e - 3] + [s[e - 3]] + s[e - 2..e]
  {
    SliceSplit(s, i, i + k, e);
    SliceSplit(s, i + k, e - 3, e);
    SliceSplit(s, e - 3, e - 2, e);
    assert s[e - 3..e - 2] == [s[e - 3]];
    AppendAssoc(s[i + k..e - 3], [s[e - 3]], s[e - 2..e]);
    AppendAssoc(s[i..i + k], s[i + k..e - 3] + [s[e - 3]], s[e - 2..e]);
    AppendAssoc(s[i..i + k], s[i + k..e - 3], [s[e - 3]]);
  }

  /** Stripping an amount leaves its integer digits, the decimal mark and the two decimals. */
  lemma StrippedAmount(s: string, i: nat, e: nat, k: nat)
    requires AmountWithLead(s, i, e, k)
    ensures AllDigits(s[i..i + k] + StripGroupSeps(s[i + k..e - 3]))
    ensures StripGroupSeps(s[i..e]) == s[i..i + k] + StripGroupSeps(s[i + k..e - 3]) + [s[e - 3]] + s[e - 2..e]
  {
    var lead, groups, dec, frac := s[i..i + k], s[i + k..e - 3], s[e - 3], s[e - 2..e];
    AmountParts(s, i, e, k);
    assert AllDigits(frac);
    StripParts(lead, groups, dec, frac);
    StripGroups(s, i + k, e - 3);
    DigitsAppend(lead, StripGroupSeps(groups));
  }

  /** Stripping `<digits><groups><mark><digits>` touches only the groups. */
  lemma StripParts(lead: string, groups: string, dec: char, frac: string)
    requires AllDigits(lead) && AllDigits(frac) && !IsGroupSep(dec)
    ensures StripGroupSeps(lead + groups + [dec] + frac) == lead + StripGroupSeps(groups) + [dec] + frac
  {
    StripGroupSepsAppend(lead + groups + [dec], frac);
    StripGroupSepsAppend(lead + groups, [dec]);
    StripGroupSepsAppend(lead, groups);
    StripDigits(lead);
    StripDigits(frac);
    StripMark(dec);
  }

  lemma StripMark(c: char)
    requires !IsGroupSep(c)
    ensures StripGroupSeps([c]) == [c]
  {
    assert [c][1..] == [];
  }

  lemma DigitsAppend(a: string, b: string)
    requires AllDigits(a) && AllDigits(b)
    ensures AllDigits(a + b)
  {
    assert forall i :: |a| <= i < |a + b| ==> (a + b)[i] == b[i - |a|];
  }

  /** `.replace(",", ".")` on `<digits><mark><two digits>` turns the mark into a point. */
  lemma DecimalPointReplaced(intPart: string, dec: char, frac: string)
    requires AllDigits(intPart) && (dec == '.' || dec == ',') && |frac| == 2 && AllDigits(frac)
    ensures ReplaceFirst(intPart + [dec] + frac, ",", ".") == intPart + "." + frac
  {
    var stripped := intPart + [dec] + frac;
    forall j | 0 <= j < |intPart| ensures !OccursAt(stripped, ",", j) {
      assert stripped[j..j + 1] == [intPart[j]];
    }
    assert stripped[|intPart|..|intPart| + 1] == [dec];
    if dec == ',' {
      assert OccursAt(stripped, ",", |intPart|);
    } else {
      assert stripped[|intPart| + 1..|intPart| + 2] == [frac[0]];
      assert stripped[|intPart| + 2..|intPart| + 3] == [frac[1]];
      assert !OccursAt(stripped, ",", |intPart|);
      assert !OccursAt(stripped, ",", |intPart| + 1) && !OccursAt(stripped, ",", |intPart| + 2);
      assert IndexOf(stripped, ",", 0) == None;
    }
  }

  /** `parseMoney(raw)`, in cents: the leftmost amount the pattern matches, or null. */
  function ParseMoney(raw: string): (r: Option<nat>)
    ensures r.None? <==> forall i: nat, e: nat :: !AmountSpan(raw, i, e)
    ensures r.Some? ==> exists i: nat, e: nat ::
              && AmountSpan(raw, i, e)
              && (forall j :: 0 <= j < i ==> MatchAt(raw, j).None?)
              && IsDecimalLiteral(Cleaned(raw[i..e]))
              && r.value == LiteralCents(Cleaned(raw[i..e]))
  {
    match FindAmount(raw, 0)
    case None =>
      assert forall i: nat, e: nat :: !AmountSpan(raw, i, e) by {
        forall i: nat, e: nat | AmountSpan(raw, i, e) ensures false {
          MatchAtComplete(raw, i, e);
        }
      }
      None
    case Some((i, e)) =>
      CleanedIsLiteral(raw, i, e);
      Some(LiteralCents(Cleaned(raw[i..e])))
  }

  /** The value `parseMoney` returns is the one of the leftmost match the matcher finds. */
  lemma ParseMoneyIsFirstMatch(raw: string, i: nat, e: nat)
    requires FindAmount(raw, 0) == Some((i, e))
    ensures IsDecimalLiteral(Cleaned(raw[i..e]))
    ensures ParseMoney(raw) == Some(LiteralCents(Cleaned(raw[i..e])))
  {
    CleanedIsLiteral(raw, i, e);
  }

  /**
   * Without group separators the pattern still takes at most three leading digits, so the
   * leftmost match in "1234.56" starts at its second character and the value is 234.56.
   */
  lemma FindExample()
    ensures FindAmount("1234.56", 0) == Some((1, 7))
  {
    var s := "1234.56";
    assert GroupsThenDecimals(s, 3).None? && GroupsThenDecimals(s, 2).None? && GroupsThenDecimals(s, 1).None?;
    assert MatchAt(s, 0).None?;
    assert GroupsThenDecimals(s, 4) == Some(7);
    assert MatchAt(s, 1) == Some(7);
  }

  lemma CleanExample()
    ensures Cleaned("234.56") == "234.56"
  {
    var m := "234.56";
    assert StripGroupSeps(m[5..]) == m[5..];
    assert StripGroupSeps(m[4..]) == m[4..];
    assert StripGroupSeps(m[3..]) == m[3..];
    assert StripGroupSeps(m[2..]) == m[2..];
    assert StripGroupSeps(m[1..]) == m[1..];
    assert StripGroupSeps(m) == m;
    assert IndexOf(m, ",", 0) == None;
  }

  lemma ValueExample()
    ensures IsDecimalLiteral("234.56") && LiteralCents("234.56") == 23456
  {
    assert "234.56"[..3] == "234";
    assert "234.56"[4..] == "56";
    assert DigitsValue("2") == 2;
    assert DigitsValue("23") == 23;
    assert DigitsValue("234") == 234;
    assert DigitsValue("5") == 5;
    assert DigitsValue("56") == 56;
  }

  /** "1234.56" is read as 234.56: the thousands digit is dropped. */
  lemma UngroupedThousands()
    ensures ParseMoney("1234.56") == Some(23456)
  {
    var raw := "1234.56";
    assert raw[1..7] == "234.56";
    FindExample();
    CleanExample();
    ValueExample();
    ParseMoneyIsFirstMatch(raw, 1, 7);
  }

  // ---------------------------------------------------------------------------
  // Currency: `detectCurrency(text)`
  // ---------------------------------------------------------------------------

  const CurrencyCodes: set<string> := {"CHF", "EUR", "USD"}

  predicate MentionsChf(t: string) { Contains(Upper(t), "CHF") }
  predicate MentionsEur(t: string) { Contains(Upper(t), "EUR") || Contains(Upper(t), "€") }
  predicate MentionsUsd(t: string) { Contains(Upper(t), "USD") || Contains(Upper(t), "$") }

  /** `detectCurrency(text)`: CHF before EUR/€ before USD/$, case-insensitively; null when none is mentioned. */
  function DetectCurrency(text: string): (r: Option<string>)
    ensures r.Some? ==> r.value in CurrencyCodes
    ensures r.None? <==> !MentionsChf(text) && !MentionsEur(text) && !MentionsUsd(text)
    ensures MentionsChf(text) ==> r == Some("CHF")
    ensures r == Some("EUR") <==> !MentionsChf(text) && MentionsEur(text)
    ensures r == Some("USD") <==> !MentionsChf(text) && !MentionsEur(text) && MentionsUsd(text)
  {
    var t := Upper(text);
    if Contains(t, "CHF") then Some("CHF")
    else if Contains(t, "EUR") || Contains(t, "€") then Some("EUR")
    else if Contains(t, "USD") || Contains(t, "$") then Some("USD")
    else None
  }

  lemma UpperOfLower(s: string)
    ensures Upper(Lower(s)) == Upper(s)
  {
  }

  /** Case does not matter: the lower-cased text names the same currency. */
  lemma DetectCurrencyIgnoresCase(text: string)
    ensures DetectCurrency(Lower(text)) == DetectCurrency(text)
  {
    UpperOfLower(text);
  }

  // ---------------------------------------------------------------------------
  // Merchant: `extractMerchant(ocr)`
  // ---------------------------------------------------------------------------

  /** `l.length > 2 && l.length <= 40`. */
  predicate MerchantSized(l: string) {
    2 < |l| <= 40
  }

  /** `lines.find(...)`, as the index of the first line of merchant size. */
  function FindMerchantLine(lines: seq<string>, from: nat): (r: Option<nat>)
    ensures r.Some? ==> from <= r.value < |lines| && MerchantSized(lines[r.value])
    ensures r.Some? ==> forall j :: from <= j < r.value ==> !MerchantSized(lines[j])
    ensures r.None? ==> forall j :: from <= j < |lines| ==> !MerchantSized(lines[j])
    decreases |lines| - from
  {
    if from >= |lines| then None
    else if MerchantSized(lines[from]) then Some(from)
    else FindMerchantLine(lines, from + 1)
  }

  /** The merchant rule on the lines: the first line if it has merchant size, otherwise the first that has. */
  function PickMerchant(lines: seq<string>): (r: Option<string>)
    ensures r.None? <==> forall j :: 0 <= j < |lines| ==> !MerchantSized(lines[j])
    ensures r.Some? ==> exists i :: 0 <= i < |lines| && lines[i] == r.value && MerchantSized(r.value)
                                    && forall j :: 0 <= j < i ==> !MerchantSized(lines[j])
  {
    if |lines| == 0 then None
    else if MerchantSized(lines[0]) then Some(lines[0])
    else match FindMerchantLine(lines, 0)
      case Some(i) => Some(lines[i])
      case None => None
  }

  /** `extractMerchant(ocr)`: the first non-blank normalised line of 3 to 40 characters, or null. */
  function ExtractMerchant(fullText: string): (r: Option<string>)
    ensures var lines := Lines(fullText);
      && (r.None? <==> forall j :: 0 <= j < |lines| ==> !MerchantSized(lines[j]))
      && (r.Some? ==> exists i :: 0 <= i < |lines| && lines[i] == r.value && MerchantSized(r.value)
                                  && forall j :: 0 <= j < i ==> !MerchantSized(lines[j]))
    ensures r.Some? ==> r.value != "" && Normalized(r.value)
  {
    var lines := Lines(fullText);
    var r := PickMerchant(lines);
    assert r.Some? ==> r.value in lines;
    r
  }

  // ---------------------------------------------------------------------------
  // Total: `extractTotal(ocr)`
  // ---------------------------------------------------------------------------

  /** The first index at or after `p` that is not white space. */
  function SpacesEnd(u: string, p: nat): (r: nat)
    ensures p <= r && (r < |u| ==> !IsSpace(u[r]))
    ensures p < r ==> r <= |u|
    ensures forall j :: p <= j < r ==> IsSpace(u[j])
    decreases |u| - p
  {
    if p < |u| && IsSpace(u[p]) then SpacesEnd(u, p + 1) else p
  }

  /** `/TO\s*PAY/` on upper-cased text: `PAY` is not white space, so `\s*` must take the whole run. */
  predicate ToPayAt(u: string, i: nat) {
    OccursAt(u, "TO", i) && OccursAt(u, "PAY", SpacesEnd(u, i + 2))
  }

  predicate MentionsToPay(u: string) {
    exists i: nat :: i <= |u| && ToPayAt(u, i)
  }

  /** The seven plain keywords of `priority`; the eighth pattern is `TO\s*PAY`. */
  const TotalKeywords: set<string> := {"TOTAL", "SUMME", "GESAMT", "AMOUNT", "DUE", "ZAHLEN", "ZAHLUNG"}

  /** The eight keyword patterns of `priority`, all case-insensitive. */
  function IsTotalLine(l: string): (r: bool)
    ensures r <==> MentionsToPay(Upper(l)) || exists kw :: kw in TotalKeywords && Contains(Upper(l), kw)
  {
    var u := Upper(l);
    Contains(u, "TOTAL") || Contains(u, "SUMME") || Contains(u, "GESAMT") || Contains(u, "AMOUNT")
    || Contains(u, "DUE") || MentionsToPay(u) || Contains(u, "ZAHLEN") || Contains(u, "ZAHLUNG")
  }

  /** Which lines count as total lines does not depend on case. */
  lemma TotalLineIgnoresCase(l: string)
    ensures IsTotalLine(Lower(l)) == IsTotalLine(l)
  {
    UpperOfLower(l);
  }

  /** `lines.filter(l => priority.some(r => r.test(l)))`. */
  function TotalLines(lines: seq<string>): (r: seq<string>)
    ensures forall l :: l in r <==> l in lines && IsTotalLine(l)
  {
    if lines == [] then []
    else (if IsTotalLine(lines[0]) then [lines[0]] else []) + TotalLines(lines[1..])
  }

  const TailLines: nat := 8

  /** `lines.slice(-8)`: the last eight lines, or all of them when there are fewer. */
  function LastLines(lines: seq<string>): (r: seq<string>)
    ensures |r| == if |lines| < TailLines then |lines| else TailLines
    ensures r == lines[|lines| - |r|..]
  {
    if |lines| < TailLines then lines else lines[|lines| - TailLines..]
  }

  /** The lines searched for amounts: the keyword lines if there are any, otherwise the last eight. */
  function Pool(lines: seq<string>): (r: seq<string>)
    ensures (exists l :: l in lines && IsTotalLine(l)) ==> forall l :: l in r <==> l in lines && IsTotalLine(l)
    ensures (forall l :: l in lines ==> !IsTotalLine(l)) ==> r == LastLines(lines)
  {
    var candidates := TotalLines(lines);
    if |candidates| > 0 then
      assert candidates[0] in candidates;
      candidates
    else LastLines(lines)
  }

  /** `pool.map(parseMoney).filter(isFinite number)`. */
  function Amounts(pool: seq<string>): (r: seq<nat>)
    ensures forall x :: x in r <==> exists l :: l in pool && ParseMoney(l) == Some(x)
  {
    if pool == [] then []
    else
      var rest := Amounts(pool[1..]);
      assert forall l :: l in pool <==> l == pool[0] || l in pool[1..];
      match ParseMoney(pool[0])
      case Some(x) => [x] + rest
      case None => rest
  }

  /** `Math.max(...nums)`. */
  function Max(nums: seq<nat>): (r: nat)
    requires |nums| > 0
    ensures r in nums && forall x :: x in nums ==> x <= r
  {
    if |nums| == 1 then nums[0]
    else
      var m := Max(nums[1..]);
      assert forall x :: x in nums ==> x == nums[0] || x in nums[1..];
      if nums[0] >= m then nums[0] else m
  }

  /** The largest amount any pool line yields, or null when none yields one. */
  function BestAmount(pool: seq<string>): (r: Option<nat>)
    ensures r.None? <==> forall l :: l in pool ==> ParseMoney(l).None?
    ensures r.Some? ==> (exists l :: l in pool && ParseMoney(l) == r)
                        && forall l :: l in pool && ParseMoney(l).Some? ==> ParseMoney(l).value <= r.value
  {
    var nums := Amounts(pool);
    if |nums| == 0 then
      assert forall l :: l in pool && ParseMoney(l).Some? ==> ParseMoney(l).value in nums;
      None
    else
      var m := Max(nums);
      Some(m)
  }

  datatype TotalGuess = TotalGuess(totalAmount: Option<nat>, currency: Option<string>)

  /** `extractTotal(ocr)`: the largest amount in the pool of lines, with the currency of the whole text. */
  function ExtractTotal(fullText: string): (r: TotalGuess)
    ensures r.currency == DetectCurrency(fullText)
    ensures var pool := Pool(Lines(fullText));
      && (r.totalAmount.None? <==> forall l :: l in pool ==> ParseMoney(l).None?)
      && (r.totalAmount.Some? ==>
            && (exists l :: l in pool && ParseMoney(l) == r.totalAmount)
            && forall l :: l in pool && ParseMoney(l).Some? ==> ParseMoney(l).value <= r.totalAmount.value)
  {
    var lines := Lines(fullText);
    var cur := DetectCurrency(fullText);
    if |lines| == 0 then
      assert Pool(lines) == [];
      TotalGuess(None, cur)
    else TotalGuess(BestAmount(Pool(lines)), cur)
  }
}
