/** Grounding boxes in a vision model's reply, and the content list of a
    multimodal chat message (src/tools/QwenVisual.ts). */
module QwenVisual {
  import opened Wrappers
  import opened Text

  // ---------------------------------------------------------------------------
  // getMatches: the pattern
  //   <ref>\s*(.*?)\s*<\/ref><box>\s*\((\d+),(\d+)\),\((\d+),(\d+)\)\s*<\/box>
  // scanned with the global flag, one `exec` after the other.
  // ---------------------------------------------------------------------------

  /** A grounding box: the referenced name and the corners (x1, y1), (x2, y2). */
  datatype MatchBox = MatchBox(name: string, x1: nat, y1: nat, x2: nat, y2: nat)

  /** What one successful `exec` returns: the index of the match, the index
      just past it (the new `lastIndex`), the name group `match[1]` and the
      digit groups `match[2..5]`. */
  datatype RegexMatch = RegexMatch(start: nat, end: nat, name: string, groups: seq<string>)

  /** The digit groups captured by a backtracking-free stretch of the pattern,
      and where the stretch ends. */
  datatype Tail = Tail(groups: seq<string>, end: nat)

  /** Where the lazy name group stops, and the rest of the match after it. */
  datatype NameEnd = NameEnd(at: nat, tail: Tail)

  /** A greedy `\s*` starting at `i` ends at the first non-space character. */
  function SpaceRunEnd(s: string, i: nat): (j: nat)
    requires i <= |s|
    ensures i <= j <= |s|
    ensures forall k :: i <= k < j ==> IsSpace(s[k])
    ensures j == |s| || !IsSpace(s[j])
    decreases |s| - i
  {
    if i < |s| && IsSpace(s[i]) then SpaceRunEnd(s, i + 1) else i
  }

  /** A greedy `\d*` starting at `i` ends at the first non-digit. */
  function DigitRunEnd(s: string, i: nat): (j: nat)
    requires i <= |s|
    ensures i <= j <= |s|
    ensures forall k :: i <= k < j ==> IsDigit(s[k])
    ensures j == |s| || !IsDigit(s[j])
    decreases |s| - i
  {
    if i < |s| && IsDigit(s[i]) then DigitRunEnd(s, i + 1) else i
  }

  predicate AllDigits(d: string)
  {
    forall k :: 0 <= k < |d| ==> IsDigit(d[k])
  }

  /** `parseInt(d, 10)` of a string of decimal digits. It is zero exactly
      when every digit is `0`. */
  function DecimalValue(d: string): (r: nat)
    requires AllDigits(d)
    ensures r == 0 <==> forall k :: 0 <= k < |d| ==> d[k] == '0'
  {
    if d == [] then 0
    else DecimalValue(d[..|d| - 1]) * 10 + (d[|d| - 1] as int - '0' as int)
  }

  /** `parseInt` ignores leading zeros. */
  lemma {:induction false} DecimalLeadingZero(d: string)
    requires AllDigits(d)
    ensures AllDigits("0" + d) && DecimalValue("0" + d) == DecimalValue(d)
    decreases |d|
  {
    var z := "0" + d;
    assert z[0] == '0' && forall k :: 0 < k < |z| ==> z[k] == d[k - 1];
    if d != [] {
      var init := d[..|d| - 1];
      assert z[..|z| - 1] == "0" + init;
      DecimalLeadingZero(init);
    }
  }

  /** The literal `t` at `i`: the position after it, or no match. */
  function Expect(s: string, i: nat, t: string): (r: Option<nat>)
    ensures r.Some? <==> StartsAt(s, i, t)
    ensures r.Some? ==> r.value == i + |t| <= |s|
  {
    if StartsAt(s, i, t) then Some(i + |t|) else None
  }

  /** `(\d+)` at `i`: where the digits end, or no match when there is none. */
  function DigitsEnd(s: string, i: nat): (r: Option<nat>)
    requires i <= |s|
    ensures r.Some? ==> i < r.value <= |s| && AllDigits(s[i..r.value])
    ensures r.Some? ==> r.value == |s| || !IsDigit(s[r.value])
    ensures r.None? <==> i == |s| || !IsDigit(s[i])
  {
    var j := DigitRunEnd(s, i);
    if j == i then None else Some(j)
  }

  /** One element of a backtracking-free stretch of the pattern: a literal,
      a greedy `\s*`, or a captured `(\d+)`. */
  datatype Token = Lit(text: string) | Spaces | Digits

  function DigitGroups(toks: seq<Token>): nat
  {
    if toks == [] then 0 else (if toks[0].Digits? then 1 else 0) + DigitGroups(toks[1..])
  }

  lemma {:induction false} DigitGroupsAppend(a: seq<Token>, b: seq<Token>)
    ensures DigitGroups(a + b) == DigitGroups(a) + DigitGroups(b)
  {
    if a != [] {
      assert (a + b)[1..] == a[1..] + b;
      DigitGroupsAppend(a[1..], b);
    } else {
      assert a + b == b;
    }
  }

  /** Matches the tokens one after the other from `i`. Every `\s*` here is
      followed by a literal that starts with a non-space, and every `\d+` by a
      literal that starts with a non-digit, so the greedy runs are the only
      ones that can succeed and no backtracking is needed. */
  function MatchTokens(s: string, i: nat, toks: seq<Token>): (r: Option<Tail>)
    requires i <= |s|
    ensures r.Some? ==> i <= r.value.end <= |s| && |r.value.groups| == DigitGroups(toks)
    ensures r.Some? ==> forall g :: g in r.value.groups ==> g != [] && AllDigits(g)
    ensures r.Some? && toks != [] && toks[|toks| - 1].Lit? ==>
      var t := toks[|toks| - 1].text; |t| <= r.value.end && StartsAt(s, r.value.end - |t|, t)
    decreases toks
  {
    if toks == [] then Some(Tail([], i))
    else match toks[0]
      case Spaces => MatchTokens(s, SpaceRunEnd(s, i), toks[1..])
      case Lit(t) =>
        var j :- Expect(s, i, t);
        MatchTokens(s, j, toks[1..])
      case Digits =>
        var j :- DigitsEnd(s, i);
        var rest :- MatchTokens(s, j, toks[1..]);
        Some(Tail([s[i..j]] + rest.groups, rest.end))
  }

  /** The last literal of a match starts at or after where matching began. */
  lemma {:induction false} MatchTokensLastLit(s: string, i: nat, toks: seq<Token>)
    requires i <= |s| && MatchTokens(s, i, toks).Some? && toks != [] && toks[|toks| - 1].Lit?
    ensures i + |toks[|toks| - 1].text| <= MatchTokens(s, i, toks).value.end
    decreases toks
  {
    var rest := toks[1..];
    if rest != [] {
      assert rest[|rest| - 1] == toks[|toks| - 1];
      var j, groups := MatchTokensRest(s, i, toks);
      MatchTokensLastLit(s, j, rest);
    }
  }

  /** A match of the tokens is the first token matched from `i` to some `j`,
      then the others from `j`, ending at the same place (`MatchStep` read
      backwards). */
  lemma MatchTokensRest(s: string, i: nat, toks: seq<Token>) returns (j: nat, rest: seq<string>)
    requires i <= |s| && MatchTokens(s, i, toks).Some? && toks != []
    ensures i <= j <= |s| && Stepped(s, i, toks[0], j, MatchTokens(s, i, toks).value.groups, rest)
    ensures MatchTokens(s, j, toks[1..]) == Some(Tail(rest, MatchTokens(s, i, toks).value.end))
  {
    var groups := MatchTokens(s, i, toks).value.groups;
    match toks[0]
    case Spaces => j, rest := SpaceRunEnd(s, i), groups;
    case Lit(t) => j, rest := i + |t|, groups;
    case Digits =>
      j := DigitsEnd(s, i).value;
      rest := MatchTokens(s, j, toks[1..]).value.groups;
  }

  function SpaceRuns(toks: seq<Token>): nat
  {
    if toks == [] then 0 else (if toks[0].Spaces? then 1 else 0) + SpaceRuns(toks[1..])
  }

  predicate AllSpace(w: string)
  {
    forall k :: 0 <= k < |w| ==> IsSpace(w[k])
  }

  /** The text the tokens spell with the given digit groups and, for each
      `\s*`, the given run of whitespace. */
  function SpellTokens(toks: seq<Token>, groups: seq<string>, runs: seq<string>): string
    requires |groups| == DigitGroups(toks) && |runs| == SpaceRuns(toks)
    decreases toks
  {
    if toks == [] then ""
    else match toks[0]
      case Spaces => runs[0] + SpellTokens(toks[1..], groups, runs[1..])
      case Lit(t) => t + SpellTokens(toks[1..], groups, runs)
      case Digits => groups[0] + SpellTokens(toks[1..], groups[1..], runs)
  }

  /** What a match consumes is the tokens spelled out with the groups it
      captured and the runs of whitespace its `\s*` took. */
  lemma {:induction false} MatchTokensSpelled(s: string, i: nat, toks: seq<Token>) returns (runs: seq<string>)
    requires i <= |s| && MatchTokens(s, i, toks).Some?
    ensures |runs| == SpaceRuns(toks) && forall w :: w in runs ==> AllSpace(w)
    ensures var r := MatchTokens(s, i, toks).value; s[i..r.end] == SpellTokens(toks, r.groups, runs)
    decreases toks
  {
    var r := MatchTokens(s, i, toks).value;
    if toks == [] {
      runs := [];
    } else {
      var j, rest := MatchTokensRest(s, i, toks);
      var more := MatchTokensSpelled(s, j, toks[1..]);
      runs := if toks[0].Spaces? then [s[i..j]] + more else more;
      SpellStep(s, i, toks, j, r.groups, rest, more);
      SliceSplit(s, i, j, r.end);
    }
  }

  /** The first token, matched from `i` to `j`, spells `s[i..j]`. */
  lemma SpellStep(s: string, i: nat, toks: seq<Token>, j: nat, groups: seq<string>, rest: seq<string>,
                  more: seq<string>)
    requires i <= j <= |s| && toks != [] && Stepped(s, i, toks[0], j, groups, rest)
    requires |rest| == DigitGroups(toks[1..]) && |more| == SpaceRuns(toks[1..])
    requires forall w :: w in more ==> AllSpace(w)
    ensures |groups| == DigitGroups(toks)
    ensures var runs := if toks[0].Spaces? then [s[i..j]] + more else more;
      |runs| == SpaceRuns(toks) && (forall w :: w in runs ==> AllSpace(w))
      && SpellTokens(toks, groups, runs) == s[i..j] + SpellTokens(toks[1..], rest, more)
  {
    if toks[0].Spaces? {
      var runs := [s[i..j]] + more;
      assert runs[1..] == more && runs[0] == s[i..j];
      assert AllSpace(s[i..j]);
    }
  }

  /** Everything after the name group:
      `\s*<\/ref><box>\s*\((\d+),(\d+)\),\((\d+),(\d+)\)\s*<\/box>`.
      It is built by concatenation so that the verifier treats it as a value
      to reason about rather than one to evaluate eagerly. */
  const TailPattern: seq<Token> := [Spaces] + [
    Lit("</ref><box>"), Spaces,
    Lit("("), Digits, Lit(","), Digits, Lit("),("), Digits, Lit(","), Digits, Lit(")"),
    Spaces, Lit("</box>")]

  /** The tail pattern in two literal halves, so that facts about it can be
      computed piecewise. */
  lemma TailHalves() returns (first: seq<Token>, second: seq<Token>)
    ensures first == [Lit("</ref><box>"), Spaces, Lit("("), Digits, Lit(","), Digits]
    ensures second == [Lit("),("), Digits, Lit(","), Digits, Lit(")"), Spaces, Lit("</box>")]
    ensures TailPattern == [Spaces] + (first + second)
    ensures DigitGroups(first) == 2 && DigitGroups(second) == 2
    ensures Chained(first) && Chained(second)
  {
    first := [Lit("</ref><box>"), Spaces, Lit("("), Digits, Lit(","), Digits];
    second := [Lit("),("), Digits, Lit(","), Digits, Lit(")"), Spaces, Lit("</box>")];
    assert Chained([Lit(","), Digits]);
    assert Chained([Lit("("), Digits, Lit(","), Digits]);
    assert Chained([Spaces, Lit("("), Digits, Lit(","), Digits]);
    assert Chained([Spaces, Lit("</box>")]);
    assert Chained([Digits, Lit(")"), Spaces, Lit("</box>")]);
    assert Chained([Digits, Lit(","), Digits, Lit(")"), Spaces, Lit("</box>")]);
  }

  lemma TailPatternShape()
    ensures TailPattern[0] == Spaces && TailPattern[1] == Lit("</ref><box>")
    ensures TailPattern[|TailPattern| - 1] == Lit("</box>")
    ensures DigitGroups(TailPattern) == 4
  {
    var first, second := TailHalves();
    DigitGroupsAppend(first, second);
    DigitGroupsAppend([Spaces], first + second);
  }

  /** Every `\s*` and `(\d+)` of the tail is followed by a literal that stops it. */
  lemma TailPatternSeparated()
    ensures Separated(TailPattern)
  {
    var first, second := TailHalves();
    ChainedAppend(first, second);
    ChainedAppend([Spaces], first + second);
    assert TailPattern[|TailPattern| - 1] == second[|second| - 1];
  }

  lemma {:induction false} ChainedAppend(a: seq<Token>, b: seq<Token>)
    requires a != [] && b != [] && Chained(a) && Chained(b) && Guarded(a[|a| - 1], b[0])
    ensures Chained(a + b)
    decreases |a|
  {
    if |a| == 1 {
      assert (a + b)[1..] == b;
    } else {
      assert (a + b)[1..] == a[1..] + b;
      ChainedAppend(a[1..], b);
    }
  }

  /** The rest of the pattern at `j`: four digit groups, ending in `</box>`. */
  function TailFrom(s: string, j: nat): (r: Option<Tail>)
    requires j <= |s|
    ensures r.Some? ==> j <= r.value.end <= |s| && 6 <= r.value.end && StartsAt(s, r.value.end - 6, "</box>")
    ensures r.Some? ==> |r.value.groups| == 4 && forall g :: g in r.value.groups ==> g != [] && AllDigits(g)
  {
    TailPatternShape();
    MatchTokens(s, j, TailPattern)
  }

  /** The closing `</box>` of a tail starts at or after the tail itself. */
  lemma TailFromAfter(s: string, j: nat)
    requires j <= |s| && TailFrom(s, j).Some?
    ensures j + 6 <= TailFrom(s, j).value.end
  {
    TailPatternShape();
    MatchTokensLastLit(s, j, TailPattern);
  }

  /** The tail begins with `\s*`, so it matches alike wherever the same run
      of spaces ends. */
  lemma TailFromSpaces(s: string, j: nat, k: nat)
    requires j <= |s| && k <= |s| && SpaceRunEnd(s, j) == SpaceRunEnd(s, k)
    ensures TailFrom(s, j) == TailFrom(s, k)
  {
    TailPatternShape();
  }

  /** The lazy `(.*?)`: the shortest name from `j` after which the rest of the
      pattern matches; `.` does not cross a line terminator. */
  function NameSearch(s: string, j: nat): (r: Option<NameEnd>)
    requires j <= |s|
    ensures r.Some? ==> j <= r.value.at <= r.value.tail.end <= |s|
    ensures r.Some? ==> 6 <= r.value.tail.end && StartsAt(s, r.value.tail.end - 6, "</box>")
    ensures r.Some? ==> |r.value.tail.groups| == 4 && forall g :: g in r.value.tail.groups ==> g != [] && AllDigits(g)
    decreases |s| - j
  {
    match TailFrom(s, j)
    case Some(c) => Some(NameEnd(j, c))
    case None => if j < |s| && !IsLineTerminator(s[j]) then NameSearch(s, j + 1) else None
  }

  lemma NameSearchStep(s: string, j: nat)
    requires j <= |s|
    ensures TailFrom(s, j).Some? ==> NameSearch(s, j) == Some(NameEnd(j, TailFrom(s, j).value))
    ensures TailFrom(s, j).None? ==>
      NameSearch(s, j) == if j < |s| && !IsLineTerminator(s[j]) then NameSearch(s, j + 1) else None
  {
  }

  /** Where the name search stops, the rest of the pattern matches. */
  lemma {:induction false} NameSearchFound(s: string, j: nat)
    requires j <= |s| && NameSearch(s, j).Some?
    ensures TailFrom(s, NameSearch(s, j).value.at) == Some(NameSearch(s, j).value.tail)
    decreases |s| - j
  {
    NameSearchStep(s, j);
    if TailFrom(s, j).None? {
      NameSearchFound(s, j + 1);
    }
  }

  /** Before that point the rest of the pattern matches nowhere, and the name
      holds no line terminator. */
  lemma {:induction false} NameSearchShortest(s: string, j: nat, k: nat)
    requires j <= k <= |s| && NameSearch(s, j).Some? && k < NameSearch(s, j).value.at
    ensures TailFrom(s, k).None? && !IsLineTerminator(s[k])
    decreases k - j
  {
    NameSearchStep(s, j);
    if TailFrom(s, j).None? && j < k {
      NameSearchShortest(s, j + 1, k);
    }
  }

  /** Four non-empty digit groups, as every match of the pattern has. */
  predicate WellFormed(m: RegexMatch)
  {
    |m.groups| == 4 && forall g :: g in m.groups ==> g != [] && AllDigits(g)
  }

  /** The whole pattern tried at index `i`. The greedy `\s*` before the name
      takes the longest run of spaces: if any split of the spaces between it
      and the name leads to a match, the longest run does too, so backtracking
      into it never changes the outcome. */
  function MatchAt(s: string, i: nat): (r: Option<RegexMatch>)
    requires i <= |s|
    ensures r.Some? ==> r.value.start == i < r.value.end <= |s| && WellFormed(r.value)
    ensures r.Some? ==> StartsAt(s, i, "<ref>") && 6 <= r.value.end && StartsAt(s, r.value.end - 6, "</box>")
  {
    var b :- Expect(s, i, "<ref>");
    var nameStart := SpaceRunEnd(s, b);
    var n :- NameSearch(s, nameStart);
    Some(RegexMatch(i, n.tail.end, s[nameStart..n.at], n.tail.groups))
  }

  /** What the pattern finds at each index `0 .. |s|` of `s`. */
  function MatchTable(s: string): (t: seq<Option<RegexMatch>>)
    ensures |t| == |s| + 1
  {
    seq(|s| + 1, i requires 0 <= i <= |s| => MatchAt(s, i))
  }

  /** Each entry of a table is a well-formed match starting at its own index
      and ending within the text (the text is one shorter than the table). */
  predicate Spans(t: seq<Option<RegexMatch>>)
  {
    forall i :: 0 <= i < |t| && t[i].Some? ==> t[i].value.start == i < t[i].value.end < |t| && WellFormed(t[i].value)
  }

  lemma MatchTableSpans(s: string)
    ensures Spans(MatchTable(s))
  {
    var t := MatchTable(s);
    forall i | 0 <= i < |t| && t[i].Some?
      ensures t[i].value.start == i < t[i].value.end < |t| && WellFormed(t[i].value)
    {
      assert t[i] == MatchAt(s, i);
    }
  }

  /** One `regex.exec(String)` with `lastIndex == from`: the leftmost match
      starting at or after `from`. */
  function Exec(t: seq<Option<RegexMatch>>, from: nat): (r: Option<RegexMatch>)
    requires Spans(t) && from < |t|
    ensures r.Some? ==> from <= r.value.start < |t| && t[r.value.start] == r
    ensures forall i :: from <= i < |t| && (r.None? || i < r.value.start) ==> t[i].None?
    decreases |t| - from
  {
    match t[from]
    case Some(m) => Some(m)
    case None => if from + 1 < |t| then Exec(t, from + 1) else None
  }

  /** The matches that repeated `exec` calls report from `from` on; each call
      resumes where the previous match ended. */
  function Scan(t: seq<Option<RegexMatch>>, from: nat): (r: seq<RegexMatch>)
    requires Spans(t) && from < |t|
    ensures forall k :: 0 <= k < |r| ==> WellFormed(r[k])
    decreases |t| - from
  {
    match Exec(t, from)
    case None => []
    case Some(m) => [m] + Scan(t, m.end)
  }

  /** The box `getMatches` pushes for one match: the name group, and the four
      digit groups through `parseInt(…, 10)`. */
  function ToBox(m: RegexMatch): MatchBox
    requires WellFormed(m)
  {
    MatchBox(m.name, DecimalValue(m.groups[0]), DecimalValue(m.groups[1]),
      DecimalValue(m.groups[2]), DecimalValue(m.groups[3]))
  }

  function Boxes(ms: seq<RegexMatch>): seq<MatchBox>
    requires forall k :: 0 <= k < |ms| ==> WellFormed(ms[k])
  {
    if ms == [] then [] else [ToBox(ms[0])] + Boxes(ms[1..])
  }

  /** The matches `getMatches` finds in `s`. */
  function Matches(s: string): (r: seq<RegexMatch>)
    ensures forall k :: 0 <= k < |r| ==> WellFormed(r[k])
  {
    MatchTableSpans(s);
    Scan(MatchTable(s), 0)
  }

  /** One `exec` of the scan: a match found is reported first, and the scan
      resumes at its end. */
  lemma ScanStep(t: seq<Option<RegexMatch>>, from: nat)
    requires Spans(t) && from < |t|
    ensures Exec(t, from).None? ==> Scan(t, from) == []
    ensures Exec(t, from).Some? ==>
      var m := Exec(t, from).value;
      from <= m.start < m.end < |t| && WellFormed(m) && Scan(t, from) == [m] + Scan(t, m.end)
  {
  }

  lemma BoxesCons(m: RegexMatch, rest: seq<RegexMatch>)
    requires WellFormed(m) && forall k :: 0 <= k < |rest| ==> WellFormed(rest[k])
    ensures Boxes([m] + rest) == [ToBox(m)] + Boxes(rest)
  {
    assert ([m] + rest)[1..] == rest;
  }

  /** `getMatches`: the `while ((match = regex.exec(String)) !== null)` loop
      pushing one box per match. */
  method GetMatches(str: string) returns (matches: seq<MatchBox>)
    ensures matches == Boxes(Matches(str))
  {
    var table := MatchTable(str);
    MatchTableSpans(str);
    matches := [];
    var lastIndex := 0;
    var match_ := Exec(table, lastIndex);
    while match_.Some?
      invariant lastIndex < |table|
      invariant match_ == Exec(table, lastIndex)
      invariant matches + Boxes(Scan(table, lastIndex)) == Boxes(Scan(table, 0))
      decreases |table| - lastIndex
    {
      ScanStep(table, lastIndex);
      var m := match_.value;
      var rest := Scan(table, m.end);
      BoxesCons(m, rest);
      assert matches + Boxes(Scan(table, lastIndex)) == (matches + [ToBox(m)]) + Boxes(rest);
      matches := matches + [ToBox(m)];
      lastIndex := m.end;
      match_ := Exec(table, lastIndex);
    }
    ScanStep(table, lastIndex);
    assert Matches(str) == Scan(table, 0);
  }

  /** Matches come in order of occurrence, do not overlap, and each one is
      the table's entry at its start. */
  lemma {:induction false} ScanOrdered(t: seq<Option<RegexMatch>>, from: nat)
    requires Spans(t) && from < |t|
    ensures var r := Scan(t, from);
      forall k :: 0 <= k < |r| ==> from <= r[k].start < r[k].end < |t| && t[r[k].start] == Some(r[k])
    ensures var r := Scan(t, from);
      forall k :: 0 <= k < |r| - 1 ==> r[k].end <= r[k + 1].start
    decreases |t| - from
  {
    match Exec(t, from)
    case None =>
    case Some(m) =>
      ScanOrdered(t, m.end);
      var r := Scan(t, from);
      assert r == [m] + Scan(t, m.end);
  }

  /** No match is skipped: every index at which the pattern matches is the
      start of a reported match or lies inside one. */
  lemma {:induction false} ScanComplete(t: seq<Option<RegexMatch>>, from: nat, i: nat)
    requires Spans(t) && from <= i < |t| && t[i].Some?
    ensures exists k :: 0 <= k < |Scan(t, from)| && Scan(t, from)[k].start <= i < Scan(t, from)[k].end
    decreases |t| - from
  {
    match Exec(t, from)
    case None =>
    case Some(m) =>
      var r := Scan(t, from);
      assert r[0] == m;
      if i >= m.end {
        ScanComplete(t, m.end, i);
        var k :| 0 <= k < |Scan(t, m.end)| && Scan(t, m.end)[k].start <= i < Scan(t, m.end)[k].end;
        assert r[k + 1] == Scan(t, m.end)[k];
      }
  }

  predicate Trimmed(name: string)
  {
    name == [] || (!IsSpace(name[0]) && !IsSpace(name[|name| - 1]))
  }

  /** A run of spaces that starts with a space ends where the run after it does. */
  lemma SpaceRunEndStep(s: string, i: nat)
    requires i < |s| && IsSpace(s[i])
    ensures SpaceRunEnd(s, i) == SpaceRunEnd(s, i + 1)
  {
  }

  /** The lazy search never stops right after a space: the rest of the
      pattern begins with `\s*`, so it would have matched one step earlier. */
  lemma NameSearchEndNotSpace(s: string, j: nat)
    requires j <= |s| && NameSearch(s, j).Some?
    ensures var at := NameSearch(s, j).value.at; j < at ==> !IsSpace(s[at - 1])
  {
    var at := NameSearch(s, j).value.at;
    if j < at && IsSpace(s[at - 1]) {
      NameSearchFound(s, j);
      SpaceRunEndStep(s, at - 1);
      TailFromSpaces(s, at - 1, at);
      NameSearchShortest(s, j, at - 1);
    }
  }

  /** The searched name holds no line terminator. */
  lemma NameSearchOneLine(s: string, j: nat)
    requires j <= |s| && NameSearch(s, j).Some?
    ensures forall k :: j <= k < NameSearch(s, j).value.at ==> !IsLineTerminator(s[k])
  {
    forall k | j <= k < NameSearch(s, j).value.at ensures !IsLineTerminator(s[k]) {
      NameSearchShortest(s, j, k);
    }
  }

  /** A name found by the lazy search from the end of a run of spaces is
      trimmed and on one line. */
  lemma NameSearchTrimmed(s: string, j: nat)
    requires j <= |s| && NameSearch(s, j).Some? && (j == |s| || !IsSpace(s[j]))
    ensures Trimmed(s[j..NameSearch(s, j).value.at])
    ensures forall k :: j <= k < NameSearch(s, j).value.at ==> !IsLineTerminator(s[k])
  {
    NameSearchEndNotSpace(s, j);
    NameSearchOneLine(s, j);
    TrimmedSlice(s, j, NameSearch(s, j).value.at);
  }

  lemma TrimmedSlice(s: string, j: nat, at: nat)
    requires j <= at <= |s| && (j == |s| || !IsSpace(s[j])) && (j < at ==> !IsSpace(s[at - 1]))
    ensures Trimmed(s[j..at])
  {
    var name := s[j..at];
    if name != [] {
      assert name[0] == s[j] && name[|name| - 1] == s[at - 1];
    }
  }

  /** A captured name never starts or ends with a space and never holds a
      line terminator. */
  lemma MatchAtName(s: string, i: nat)
    requires i <= |s| && MatchAt(s, i).Some?
    ensures Trimmed(MatchAt(s, i).value.name)
    ensures forall k :: 0 <= k < |MatchAt(s, i).value.name| ==> !IsLineTerminator(MatchAt(s, i).value.name[k])
  {
    var nameStart := SpaceRunEnd(s, i + 5);
    var n := NameSearch(s, nameStart).value;
    assert MatchAt(s, i).value.name == s[nameStart..n.at];
    NameSearchTrimmed(s, nameStart);
  }

  /** What a match consumes: `<ref>`, whitespace, the captured name,
      whitespace, `</ref><box>`, whitespace, the four captured digit groups
      between `(`, `,`, `),(`, `,` and `)`, whitespace and `</box>`. */
  lemma MatchAtSpelled(s: string, i: nat) returns (w0: string, w1: string, w2: string, w3: string)
    requires i <= |s| && MatchAt(s, i).Some?
    ensures AllSpace(w0) && AllSpace(w1) && AllSpace(w2) && AllSpace(w3)
    ensures var m := MatchAt(s, i).value;
      s[i..m.end] == "<ref>" + w0 + m.name + (w1 + "</ref><box>" + w2 + "(" + m.groups[0] + "," + m.groups[1]
        + "),(" + m.groups[2] + "," + m.groups[3] + ")" + w3 + "</box>")
  {
    var m := MatchAt(s, i).value;
    var nameStart := SpaceRunEnd(s, i + 5);
    var n := NameSearch(s, nameStart).value;
    assert m.name == s[nameStart..n.at] && m.end == n.tail.end && m.groups == n.tail.groups;
    NameSearchFound(s, nameStart);
    w1, w2, w3 := TailFromSpelled(s, n.at);
    w0 := s[i + 5..nameStart];
    SliceSplit(s, i, i + 5, nameStart);
    SliceSplit(s, i, nameStart, n.at);
    SliceSplit(s, i, n.at, m.end);
  }

  /** What the rest of the pattern consumes after the name. */
  lemma TailFromSpelled(s: string, at: nat) returns (w1: string, w2: string, w3: string)
    requires at <= |s| && TailFrom(s, at).Some?
    ensures AllSpace(w1) && AllSpace(w2) && AllSpace(w3)
    ensures var r := TailFrom(s, at).value;
      s[at..r.end] == w1 + "</ref><box>" + w2 + "(" + r.groups[0] + "," + r.groups[1]
        + "),(" + r.groups[2] + "," + r.groups[3] + ")" + w3 + "</box>"
  {
    var r := TailFrom(s, at).value;
    assert MatchTokens(s, at, TailPattern) == Some(r);
    var runs := MatchTokensSpelled(s, at, TailPattern);
    TailPatternSpelled(r.groups, runs);
    w1, w2, w3 := runs[0], runs[1], runs[2];
    assert w1 in runs && w2 in runs && w3 in runs;
  }

  /** Every reported match is what the pattern finds at its start. */
  lemma MatchesAreMatchAt(s: string, m: RegexMatch)
    requires m in Matches(s)
    ensures m.start <= |s| && MatchAt(s, m.start) == Some(m)
  {
    var t := MatchTable(s);
    MatchTableSpans(s);
    ScanOrdered(t, 0);
    assert Matches(s) == Scan(t, 0);
    var k :| 0 <= k < |Matches(s)| && Matches(s)[k] == m;
    assert t[m.start] == MatchAt(s, m.start);
  }

  /** Every reported name is trimmed and on one line. */
  lemma MatchesNames(s: string)
    ensures forall m :: m in Matches(s) ==> Trimmed(m.name)
    ensures forall m, k :: m in Matches(s) && 0 <= k < |m.name| ==> !IsLineTerminator(m.name[k])
  {
    forall m | m in Matches(s)
      ensures Trimmed(m.name)
      ensures forall k :: 0 <= k < |m.name| ==> !IsLineTerminator(m.name[k])
    {
      MatchesAreMatchAt(s, m);
      MatchAtName(s, m.start);
    }
  }

  /** A text without `<ref>` or without `</box>` holds no grounding box. */
  lemma NoMatchWithoutTags(s: string)
    requires !Contains(s, "<ref>") || !Contains(s, "</box>")
    ensures Matches(s) == []
  {
    if Matches(s) != [] {
      var m := Matches(s)[0];
      MatchesAreMatchAt(s, m);
      ContainsIff(s, "<ref>");
      ContainsIff(s, "</box>");
    }
  }

  /** In a match found at `i`, the closing `</box>` starts after the opening
      `<ref>`, at `i + 5` or later. */
  lemma MatchAtClosesAfterRef(s: string, i: nat)
    requires i <= |s| && MatchAt(s, i).Some?
    ensures i + 11 <= MatchAt(s, i).value.end
  {
    var nameStart := SpaceRunEnd(s, i + 5);
    var n := NameSearch(s, nameStart).value;
    NameSearchFound(s, nameStart);
    TailFromAfter(s, n.at);
  }

  /** A text in which no `</box>` starts after the `<ref>` of any `<ref>`
      holds no grounding box: the closing tag must follow the opening one. */
  lemma NoMatchWithoutClosingTag(s: string)
    requires forall i: nat, k: nat :: i + 5 <= k && StartsAt(s, i, "<ref>") ==> !StartsAt(s, k, "</box>")
    ensures Matches(s) == []
  {
    if Matches(s) != [] {
      var m := Matches(s)[0];
      MatchesAreMatchAt(s, m);
      MatchAtClosesAfterRef(s, m.start);
      assert false;
    }
  }

  // ---------------------------------------------------------------------------
  // Rendering boxes as text, which the scan reads back.
  // ---------------------------------------------------------------------------

  /** A token sequence whose every `\s*` is followed by a literal that starts
      with a non-space, whose every `(\d+)` is followed by a literal that starts
      with a non-digit, and which ends in a literal. */
  predicate Separated(toks: seq<Token>)
  {
    toks == [] || (toks[|toks| - 1].Lit? && Chained(toks))
  }

  predicate Chained(toks: seq<Token>)
  {
    |toks| <= 1 || (Guarded(toks[0], toks[1]) && Chained(toks[1..]))
  }

  predicate Guarded(a: Token, b: Token)
  {
    (a.Spaces? ==> b.Lit? && b.text != [] && !IsSpace(b.text[0]))
    && (a.Digits? ==> b.Lit? && b.text != [] && !IsDigit(b.text[0]))
  }

  /** The text the tokens spell with the given digit groups and no spaces. */
  function RenderTokens(toks: seq<Token>, groups: seq<string>): string
    requires |groups| == DigitGroups(toks)
    decreases toks
  {
    if toks == [] then ""
    else match toks[0]
      case Spaces => RenderTokens(toks[1..], groups)
      case Lit(t) => t + RenderTokens(toks[1..], groups)
      case Digits => groups[0] + RenderTokens(toks[1..], groups[1..])
  }

  lemma {:induction false} DigitRunEndAt(s: string, i: nat, e: nat)
    requires i <= e < |s| && !IsDigit(s[e])
    requires forall k :: i <= k < e ==> IsDigit(s[k])
    ensures DigitRunEnd(s, i) == e
    decreases e - i
  {
    if i < e {
      DigitRunEndAt(s, i + 1, e);
    }
  }

  /** Where separated tokens are spelled out, they match exactly that text
      and capture exactly the groups they were spelled with. */
  lemma {:induction false} MatchTokensRender(s: string, i: nat, toks: seq<Token>, groups: seq<string>)
    requires i <= |s| && Separated(toks) && |groups| == DigitGroups(toks)
    requires forall g :: g in groups ==> g != [] && AllDigits(g)
    requires StartsAt(s, i, RenderTokens(toks, groups))
    ensures MatchTokens(s, i, toks) == Some(Tail(groups, i + |RenderTokens(toks, groups)|))
    decreases toks
  {
    if toks != [] {
      var j, rest := RenderStep(s, i, toks, groups);
      var end := i + |RenderTokens(toks, groups)|;
      MatchTokensRender(s, j, toks[1..], rest);
      MatchStep(s, i, toks, j, groups, rest, end);
    } else {
      assert groups == [] && RenderTokens(toks, groups) == [];
    }
  }

  /** The first token matches from `i` to `j`, capturing in front of `rest`
      the groups `groups` holds beyond it. */
  predicate Stepped(s: string, i: nat, tok: Token, j: nat, groups: seq<string>, rest: seq<string>)
    requires i <= j <= |s|
  {
    match tok
    case Spaces => j == SpaceRunEnd(s, i) && rest == groups
    case Lit(t) => StartsAt(s, i, t) && j == i + |t| && rest == groups
    case Digits => DigitsEnd(s, i) == Some(j) && groups == [s[i..j]] + rest
  }

  /** Matching the tokens is matching the first one, then the others. */
  lemma MatchStep(s: string, i: nat, toks: seq<Token>, j: nat, groups: seq<string>, rest: seq<string>, end: nat)
    requires i <= j <= |s| && toks != [] && Stepped(s, i, toks[0], j, groups, rest)
    requires MatchTokens(s, j, toks[1..]) == Some(Tail(rest, end))
    ensures MatchTokens(s, i, toks) == Some(Tail(groups, end))
  {
  }

  /** A spelled-out token is followed by the others spelled out. */
  lemma RenderStep(s: string, i: nat, toks: seq<Token>, groups: seq<string>) returns (j: nat, rest: seq<string>)
    requires toks != [] && i <= |s| && Separated(toks) && |groups| == DigitGroups(toks)
    requires forall g :: g in groups ==> g != [] && AllDigits(g)
    requires StartsAt(s, i, RenderTokens(toks, groups))
    ensures i <= j <= |s| && Stepped(s, i, toks[0], j, groups, rest)
    ensures Separated(toks[1..]) && |rest| == DigitGroups(toks[1..])
    ensures forall g :: g in rest ==> g != [] && AllDigits(g)
    ensures StartsAt(s, j, RenderTokens(toks[1..], rest))
    ensures j + |RenderTokens(toks[1..], rest)| == i + |RenderTokens(toks, groups)|
  {
    SeparatedTail(toks);
    match toks[0]
    case Spaces =>
      SpacesStep(s, i, toks, groups);
      j, rest := i, groups;
    case Lit(t) =>
      LitRender(s, i, toks, groups);
      j, rest := i + |t|, groups;
    case Digits =>
      j, rest := DigitsRenderStep(s, i, toks, groups);
  }

  /** `RenderStep` for a digit group: it is read back as the first group. */
  lemma DigitsRenderStep(s: string, i: nat, toks: seq<Token>, groups: seq<string>) returns (j: nat, rest: seq<string>)
    requires toks != [] && toks[0].Digits? && i <= |s| && Separated(toks) && |groups| == DigitGroups(toks)
    requires forall g :: g in groups ==> g != [] && AllDigits(g)
    requires StartsAt(s, i, RenderTokens(toks, groups))
    ensures i <= j <= |s| && DigitsEnd(s, i) == Some(j) && groups == [s[i..j]] + rest
    ensures |rest| == DigitGroups(toks[1..]) && forall g :: g in rest ==> g != [] && AllDigits(g)
    ensures StartsAt(s, j, RenderTokens(toks[1..], rest))
    ensures j + |RenderTokens(toks[1..], rest)| == i + |RenderTokens(toks, groups)|
  {
    DigitsStep(s, i, toks, groups);
    j, rest := i + |groups[0]|, groups[1..];
    assert forall h :: h in rest ==> h in groups;
    assert groups == [s[i..j]] + rest;
  }

  lemma SeparatedTail(toks: seq<Token>)
    requires toks != [] && Separated(toks)
    ensures Separated(toks[1..])
  {
    var rest := toks[1..];
    if rest != [] {
      assert rest[|rest| - 1] == toks[|toks| - 1];
    }
  }

  /** A spelled-out literal is followed by the rest spelled out. */
  lemma LitRender(s: string, i: nat, toks: seq<Token>, groups: seq<string>)
    requires toks != [] && toks[0].Lit?
    requires i <= |s| && |groups| == DigitGroups(toks)
    requires StartsAt(s, i, RenderTokens(toks, groups))
    ensures |groups| == DigitGroups(toks[1..])
    ensures StartsAt(s, i, toks[0].text)
    ensures StartsAt(s, i + |toks[0].text|, RenderTokens(toks[1..], groups))
    ensures |RenderTokens(toks, groups)| == |toks[0].text| + |RenderTokens(toks[1..], groups)|
  {
    assert RenderTokens(toks, groups) == toks[0].text + RenderTokens(toks[1..], groups);
    StartsAtAppend(s, i, toks[0].text, RenderTokens(toks[1..], groups));
  }

  /** A spelled-out `\s*` is empty, and the literal after it starts with a
      non-space, so the greedy run stops at once. */
  lemma SpacesStep(s: string, i: nat, toks: seq<Token>, groups: seq<string>)
    requires i <= |s| && toks != [] && toks[0].Spaces? && Separated(toks) && |groups| == DigitGroups(toks)
    requires StartsAt(s, i, RenderTokens(toks, groups))
    ensures SpaceRunEnd(s, i) == i
    ensures RenderTokens(toks, groups) == RenderTokens(toks[1..], groups)
  {
    var rest := toks[1..];
    var t := rest[0].text;
    assert RenderTokens(rest, groups) == t + RenderTokens(rest[1..], groups);
    StartsAtAppend(s, i, t, RenderTokens(rest[1..], groups));
    assert s[i..i + |t|][0] == s[i];
  }

  /** A spelled-out `(\d+)` is its group, and the literal after it starts
      with a non-digit, so the greedy run captures exactly the group. */
  lemma DigitsStep(s: string, i: nat, toks: seq<Token>, groups: seq<string>)
    requires i <= |s| && toks != [] && toks[0].Digits? && Separated(toks) && |groups| == DigitGroups(toks)
    requires forall g :: g in groups ==> g != [] && AllDigits(g)
    requires StartsAt(s, i, RenderTokens(toks, groups))
    ensures DigitsEnd(s, i) == Some(i + |groups[0]|) && s[i..i + |groups[0]|] == groups[0]
    ensures RenderTokens(toks, groups) == groups[0] + RenderTokens(toks[1..], groups[1..])
    ensures StartsAt(s, i + |groups[0]|, RenderTokens(toks[1..], groups[1..]))
  {
    var rest := toks[1..];
    var g := groups[0];
    var t := rest[0].text;
    var after := RenderTokens(rest, groups[1..]);
    assert after == t + RenderTokens(rest[1..], groups[1..]);
    StartsAtAppend(s, i, g, after);
    StartsAtAppend(s, i + |g|, t, RenderTokens(rest[1..], groups[1..]));
    assert s[i + |g|..i + |g| + |t|][0] == s[i + |g|];
    assert g in groups;
    forall k | i <= k < i + |g| ensures IsDigit(s[k]) {
      assert s[i..i + |g|][k - i] == s[k];
    }
    DigitRunEndAt(s, i, i + |g|);
  }

  /** The decimal digits `Number.prototype.toString` writes for `n`. */
  function DecimalDigits(n: nat): (d: string)
    ensures d != [] && AllDigits(d)
  {
    if n < 10 then [('0' as int + n) as char]
    else DecimalDigits(n / 10) + [('0' as int + n % 10) as char]
  }

  /** `parseInt` reads back what `toString` writes. */
  lemma {:induction false} DecimalRoundTrip(n: nat)
    ensures DecimalValue(DecimalDigits(n)) == n
  {
    var d := DecimalDigits(n);
    if n >= 10 {
      assert d[..|d| - 1] == DecimalDigits(n / 10);
      DecimalRoundTrip(n / 10);
    }
  }

  /** A name the pattern gives back unchanged: no leading or trailing space,
      no `<` and no line terminator. */
  predicate PlainName(name: string)
  {
    Trimmed(name) && '<' !in name && forall c :: c in name ==> !IsLineTerminator(c)
  }

  function Groups(b: MatchBox): seq<string>
  {
    [DecimalDigits(b.x1), DecimalDigits(b.y1), DecimalDigits(b.x2), DecimalDigits(b.y2)]
  }

  /** The grounding markup for one box, as the vision model writes it:
      `<ref> name</ref><box>(x1,y1),(x2,y2)</box>`. */
  function Render(b: MatchBox): string
  {
    "<ref> " + b.name + TailText(b)
  }

  /** `</ref><box>(x1,y1),(x2,y2)</box>`: the tail of the pattern spelled out
      (`TailTextTokens`). */
  function TailText(b: MatchBox): string
  {
    "</ref><box>(" + DecimalDigits(b.x1) + "," + DecimalDigits(b.y1)
    + "),(" + DecimalDigits(b.x2) + "," + DecimalDigits(b.y2) + ")</box>"
  }

  /** The lazy search stops at the first index where the rest of the pattern
      matches, provided no line terminator comes before it. */
  lemma {:induction false} NameSearchAt(s: string, j: nat, e: nat, tail: Tail)
    requires j <= e <= |s| && TailFrom(s, e) == Some(tail)
    requires forall k :: j <= k < e ==> TailFrom(s, k).None? && !IsLineTerminator(s[k])
    ensures NameSearch(s, j) == Some(NameEnd(e, tail))
    decreases e - j
  {
    NameSearchStep(s, j);
    if j < e {
      NameSearchAt(s, j + 1, e, tail);
    }
  }

  lemma SpacesMatchStep(s: string, i: nat, toks: seq<Token>)
    requires i <= |s| && toks != [] && toks[0].Spaces?
    ensures MatchTokens(s, i, toks) == MatchTokens(s, SpaceRunEnd(s, i), toks[1..])
  {
  }

  lemma LitFail(s: string, i: nat, toks: seq<Token>)
    requires i <= |s| && toks != [] && toks[0].Lit? && !StartsAt(s, i, toks[0].text)
    ensures MatchTokens(s, i, toks).None?
  {
  }

  /** The rest of the pattern begins, after its spaces, with `<`. */
  lemma TailFromNoRef(s: string, k: nat)
    requires k <= |s| && SpaceRunEnd(s, k) < |s| && s[SpaceRunEnd(s, k)] != '<'
    ensures TailFrom(s, k).None?
  {
    TailPatternShape();
    var p := SpaceRunEnd(s, k);
    SpacesMatchStep(s, k, TailPattern);
    LitFail(s, p, TailPattern[1..]);
  }

  /** `s[i..]` starts with the character `c`. */
  lemma StartsWithChar(s: string, i: nat, t: string)
    requires StartsAt(s, i, t) && t != []
    ensures i < |s| && s[i] == t[0]
  {
    assert s[i..i + |t|][0] == s[i];
  }

  /** How a written-out box lies in the text. */
  lemma RenderPieces(s: string, i: nat, b: MatchBox)
    requires i <= |s| && PlainName(b.name) && StartsAt(s, i, Render(b))
    ensures StartsAt(s, i, "<ref>") && SpaceRunEnd(s, i + 5) == i + 6
    ensures StartsAt(s, i + 6 + |b.name|, TailText(b)) && s[i + 6..i + 6 + |b.name|] == b.name
    ensures |Render(b)| == 6 + |b.name| + |TailText(b)|
    ensures i + 6 + |b.name| < |s| && s[i + 6 + |b.name|] == '<'
  {
    var tail := TailText(b);
    assert tail[0] == '<';
    HeadPieces(s, i, b.name, tail);
  }

  /** `RenderPieces` for any tail opening with `<`. */
  lemma HeadPieces(s: string, i: nat, name: string, tail: string)
    requires i <= |s| && PlainName(name) && tail != [] && tail[0] == '<'
    requires StartsAt(s, i, "<ref> " + name + tail)
    ensures StartsAt(s, i, "<ref>") && SpaceRunEnd(s, i + 5) == i + 6
    ensures StartsAt(s, i + 6 + |name|, tail) && s[i + 6..i + 6 + |name|] == name
    ensures i + 6 + |name| < |s| && s[i + 6 + |name|] == '<'
  {
    var e := i + 6 + |name|;
    StartsAtAppend(s, i, "<ref> " + name, tail);
    StartsAtAppend(s, i, "<ref> ", name);
    StartsAtAppend(s, i, "<ref>", " ");
    StartsWithChar(s, i + 5, " ");
    StartsWithChar(s, e, tail);
    if name != [] {
      StartsWithChar(s, i + 6, name);
    }
    assert SpaceRunEnd(s, i + 6) == i + 6;
  }

  /** Inside a plain name the rest of the pattern cannot start, and there is
      no line terminator. */
  lemma NameInside(s: string, j: nat, name: string)
    requires PlainName(name) && j + |name| < |s| && s[j..j + |name|] == name && s[j + |name|] == '<'
    ensures forall k :: j <= k < j + |name| ==> TailFrom(s, k).None? && !IsLineTerminator(s[k])
  {
    var e := j + |name|;
    forall k | j <= k < e ensures TailFrom(s, k).None? && !IsLineTerminator(s[k]) {
      assert s[j..e][k - j] == s[k];
      assert name[k - j] in name;
      var p := SpaceRunEnd(s, k);
      assert s[j..e][|name| - 1] == s[e - 1];
      assert name[|name| - 1] in name;
      assert p < e;
      assert s[j..e][p - j] == s[p];
      assert name[p - j] in name;
      TailFromNoRef(s, k);
    }
  }

  /** Where a box with a plain name is written out, the pattern finds exactly
      that box. */
  lemma MatchAtRender(s: string, i: nat, b: MatchBox)
    requires i <= |s| && PlainName(b.name) && StartsAt(s, i, Render(b))
    ensures MatchAt(s, i) == Some(RegexMatch(i, i + |Render(b)|, b.name, Groups(b)))
  {
    RenderTail(s, i, b);
    MatchAtPieces(s, i, b.name, Groups(b), i + |Render(b)|);
  }

  /** A written-out box is `<ref>`, one space, the name, and a tail that the
      rest of the pattern matches up to the end of the rendering. */
  lemma RenderTail(s: string, i: nat, b: MatchBox)
    requires i <= |s| && PlainName(b.name) && StartsAt(s, i, Render(b))
    ensures i + 6 <= |s| && StartsAt(s, i, "<ref>") && SpaceRunEnd(s, i + 5) == i + 6
    ensures i + 6 + |b.name| < |s| && s[i + 6..i + 6 + |b.name|] == b.name && s[i + 6 + |b.name|] == '<'
    ensures TailFrom(s, i + 6 + |b.name|) == Some(Tail(Groups(b), i + |Render(b)|))
  {
    RenderPieces(s, i, b);
    TailFromRender(s, i + 6 + |b.name|, b);
  }

  /** The pattern finds the match made of `<ref>`, one space, a plain name and
      a tail that the rest of the pattern matches. */
  lemma MatchAtPieces(s: string, i: nat, name: string, groups: seq<string>, end: nat)
    requires i + 6 <= |s| && StartsAt(s, i, "<ref>") && SpaceRunEnd(s, i + 5) == i + 6 && PlainName(name)
    requires i + 6 + |name| < |s| && s[i + 6..i + 6 + |name|] == name && s[i + 6 + |name|] == '<'
    requires TailFrom(s, i + 6 + |name|) == Some(Tail(groups, end))
    ensures MatchAt(s, i) == Some(RegexMatch(i, end, name, groups))
  {
    NameInside(s, i + 6, name);
    NameSearchAt(s, i + 6, i + 6 + |name|, Tail(groups, end));
    MatchAtStep(s, i, i + 6, i + 6 + |name|, end, name, groups);
  }

  /** Where the tail of a box is written out, the rest of the pattern matches
      exactly it and captures the box's digits. */
  lemma TailFromRender(s: string, e: nat, b: MatchBox)
    requires e <= |s| && StartsAt(s, e, TailText(b))
    ensures TailFrom(s, e) == Some(Tail(Groups(b), e + |TailText(b)|))
  {
    TailPatternSeparated();
    TailTextTokens(b);
    MatchTokensRender(s, e, TailPattern, Groups(b));
  }

  lemma MatchAtStep(s: string, i: nat, j: nat, at: nat, end: nat, name: string, groups: seq<string>)
    requires i + 5 <= |s| && StartsAt(s, i, "<ref>") && SpaceRunEnd(s, i + 5) == j
    requires NameSearch(s, j) == Some(NameEnd(at, Tail(groups, end)))
    requires s[j..at] == name
    ensures MatchAt(s, i) == Some(RegexMatch(i, end, name, groups))
  {
  }

  /** The gaps of a text between grounding boxes hold no `<`. */
  lemma NoMatchAtGap(s: string, i: nat)
    requires i <= |s| && (i == |s| || s[i] != '<')
    ensures MatchAt(s, i).None?
  {
    if MatchAt(s, i).Some? {
      StartsWithChar(s, i, "<ref>");
    }
  }

  /** Boxes written between gaps: `gaps[0] box[0] gaps[1] … box[n-1] gaps[n]`. */
  function Layout(gaps: seq<string>, boxes: seq<MatchBox>): string
    requires |gaps| == |boxes| + 1
    decreases boxes
  {
    if boxes == [] then gaps[0] else gaps[0] + Render(boxes[0]) + Layout(gaps[1..], boxes[1..])
  }

  /** `exec` reports the first index from `from` on where the pattern
      matches, and nothing when there is none. */
  lemma ExecFirst(t: seq<Option<RegexMatch>>, from: nat, q: nat)
    requires Spans(t) && from <= q <= |t| && from < |t|
    requires forall i :: from <= i < q ==> t[i].None?
    ensures q < |t| ==> Exec(t, from) == t[q] || t[q].None?
    ensures q == |t| ==> Exec(t, from).None?
  {
  }

  /** What the scan of a layout needs to know of the table of `s`: no match
      starts at an index that does not hold `<`, and a box written out with a
      plain name is matched exactly. */
  ghost predicate Recognizes(s: string, t: seq<Option<RegexMatch>>)
  {
    |t| == |s| + 1 && Spans(t)
    && (forall i :: 0 <= i < |t| && (i == |s| || s[i] != '<') ==> t[i].None?)
    && (forall q: nat, b: MatchBox :: q <= |s| && PlainName(b.name) && StartsAt(s, q, Render(b)) ==>
          t[q] == Some(RegexMatch(q, q + |Render(b)|, b.name, Groups(b))))
  }

  lemma MatchTableRecognizes(s: string)
    ensures Recognizes(s, MatchTable(s))
  {
    var t := MatchTable(s);
    MatchTableSpans(s);
    forall i | 0 <= i < |t| && (i == |s| || s[i] != '<') ensures t[i].None? {
      NoMatchAtGap(s, i);
    }
    forall q: nat, b: MatchBox | q <= |s| && PlainName(b.name) && StartsAt(s, q, Render(b))
      ensures t[q] == Some(RegexMatch(q, q + |Render(b)|, b.name, Groups(b)))
    {
      TableAtRender(s, q, b);
    }
  }

  lemma TableAtRender(s: string, q: nat, b: MatchBox)
    requires q <= |s| && PlainName(b.name) && StartsAt(s, q, Render(b))
    ensures MatchTable(s)[q] == Some(RegexMatch(q, q + |Render(b)|, b.name, Groups(b)))
  {
    MatchAtRender(s, q, b);
  }

  /** No match starts inside a gap. */
  lemma GapHasNoMatch(s: string, t: seq<Option<RegexMatch>>, p: nat, g: string)
    requires Recognizes(s, t) && StartsAt(s, p, g) && '<' !in g
    ensures forall i :: p <= i < p + |g| ==> t[i].None?
  {
    forall i | p <= i < p + |g| ensures t[i].None? {
      assert s[p..p + |g|][i - p] == s[i];
      assert g[i - p] in g;
    }
  }

  lemma LayoutCons(gaps: seq<string>, boxes: seq<MatchBox>)
    requires |gaps| == |boxes| + 1 && boxes != []
    ensures Layout(gaps, boxes) == gaps[0] + (Render(boxes[0]) + Layout(gaps[1..], boxes[1..]))
  {
  }

  /** The first match at or after `p` is the first one the scan reports. */
  lemma ScanFirst(t: seq<Option<RegexMatch>>, p: nat, q: nat, m: RegexMatch)
    requires Spans(t) && p <= q < |t| && t[q] == Some(m)
    requires forall i :: p <= i < q ==> t[i].None?
    ensures m.end < |t| && Scan(t, p) == [m] + Scan(t, m.end)
  {
    ExecFirst(t, p, q);
    ScanStep(t, p);
  }

  /** After a gap, the scan reports the box written there first. */
  lemma ScanAtBox(s: string, t: seq<Option<RegexMatch>>, p: nat, g: string, b: MatchBox) returns (m: RegexMatch)
    requires Recognizes(s, t) && StartsAt(s, p, g) && '<' !in g
    requires PlainName(b.name) && StartsAt(s, p + |g|, Render(b))
    ensures m == RegexMatch(p + |g|, p + |g| + |Render(b)|, b.name, Groups(b))
    ensures m.end < |t| && Scan(t, p) == [m] + Scan(t, m.end)
  {
    m := RegexMatch(p + |g|, p + |g| + |Render(b)|, b.name, Groups(b));
    GapHasNoMatch(s, t, p, g);
    assert t[p + |g|] == Some(m);
    ScanFirst(t, p, p + |g|, m);
  }

  /** A final gap holds no match. */
  lemma ScanAtEnd(s: string, t: seq<Option<RegexMatch>>, p: nat, g: string)
    requires Recognizes(s, t) && StartsAt(s, p, g) && '<' !in g && p + |g| == |s|
    ensures Scan(t, p) == []
  {
    GapHasNoMatch(s, t, p, g);
    ExecFirst(t, p, |t|);
    ScanStep(t, p);
  }

  /** A gap, a box and the rest of a layout: the scan reports the box's
      match first and resumes where the rest begins. */
  lemma ScanLayoutStep(s: string, t: seq<Option<RegexMatch>>, p: nat, g: string, b: MatchBox, rest: string)
      returns (m: RegexMatch)
    requires Recognizes(s, t) && '<' !in g && PlainName(b.name)
    requires StartsAt(s, p, g + (Render(b) + rest))
    ensures m.name == b.name && m.groups == Groups(b)
    ensures m.end < |t| && Scan(t, p) == [m] + Scan(t, m.end)
    ensures m.end == p + |g| + |Render(b)| && StartsAt(s, m.end, rest)
  {
    StartsAtSplit3(s, p, g, Render(b), rest);
    m := ScanAtBox(s, t, p, g, b);
  }

  /** Scanning from the start of a layout reports exactly its boxes. */
  lemma {:induction false} ScanLayout(s: string, t: seq<Option<RegexMatch>>, p: nat, gaps: seq<string>, boxes: seq<MatchBox>)
    requires |gaps| == |boxes| + 1 && Recognizes(s, t)
    requires forall g :: g in gaps ==> '<' !in g
    requires forall b :: b in boxes ==> PlainName(b.name)
    requires p + |Layout(gaps, boxes)| == |s| && StartsAt(s, p, Layout(gaps, boxes))
    ensures Boxes(Scan(t, p)) == boxes
    decreases boxes
  {
    assert gaps[0] in gaps;
    if boxes == [] {
      ScanAtEnd(s, t, p, gaps[0]);
    } else {
      assert boxes[0] in boxes;
      LayoutCons(gaps, boxes);
      var m := ScanLayoutStep(s, t, p, gaps[0], boxes[0], Layout(gaps[1..], boxes[1..]));
      assert forall h :: h in gaps[1..] ==> h in gaps;
      assert forall c :: c in boxes[1..] ==> c in boxes;
      ScanLayout(s, t, m.end, gaps[1..], boxes[1..]);
      BoxesOfRendered(boxes[0], m, Scan(t, m.end));
      HeadTail(boxes);
    }
  }

  /** A rendered box's match, reported before others, is converted first. */
  lemma BoxesOfRendered(b: MatchBox, m: RegexMatch, rest: seq<RegexMatch>)
    requires m.name == b.name && m.groups == Groups(b)
    requires forall k :: 0 <= k < |rest| ==> WellFormed(rest[k])
    ensures WellFormed(m) && Boxes([m] + rest) == [b] + Boxes(rest)
  {
    BoxRoundTrip(b, m);
    BoxesCons(m, rest);
  }

  /** A rendered box's match converts back to the box. */
  lemma BoxRoundTrip(b: MatchBox, m: RegexMatch)
    requires m.name == b.name && m.groups == Groups(b)
    ensures WellFormed(m) && ToBox(m) == b
  {
    DecimalRoundTrip(b.x1);
    DecimalRoundTrip(b.y1);
    DecimalRoundTrip(b.x2);
    DecimalRoundTrip(b.y2);
  }

  /** Rendering then scanning gives the boxes back: `getMatches` inverts the
      layout of plain-named boxes between gaps without `<`. */
  lemma MatchesLayout(gaps: seq<string>, boxes: seq<MatchBox>)
    requires |gaps| == |boxes| + 1
    requires forall g :: g in gaps ==> '<' !in g
    requires forall b :: b in boxes ==> PlainName(b.name)
    ensures Boxes(Matches(Layout(gaps, boxes))) == boxes
  {
    var s := Layout(gaps, boxes);
    MatchTableRecognizes(s);
    ScanLayout(s, MatchTable(s), 0, gaps, boxes);
  }

  /** `n` empty runs of whitespace. */
  function Blanks(n: nat): (runs: seq<string>)
    ensures |runs| == n && forall w :: w in runs ==> w == ""
  {
    seq(n, _ => "")
  }

  /** Rendering is spelling with every `\s*` taking no whitespace at all. */
  lemma {:induction false} RenderTokensSpelled(toks: seq<Token>, groups: seq<string>)
    requires |groups| == DigitGroups(toks)
    ensures RenderTokens(toks, groups) == SpellTokens(toks, groups, Blanks(SpaceRuns(toks)))
    decreases toks
  {
    if toks != [] {
      var rest := toks[1..];
      match toks[0]
      case Spaces =>
        assert Blanks(SpaceRuns(toks))[1..] == Blanks(SpaceRuns(rest));
        RenderTokensSpelled(rest, groups);
        assert Blanks(SpaceRuns(toks))[0] == "";
      case Lit(t) =>
        assert Blanks(SpaceRuns(toks)) == Blanks(SpaceRuns(rest));
        RenderTokensSpelled(rest, groups);
      case Digits =>
        assert Blanks(SpaceRuns(toks)) == Blanks(SpaceRuns(rest));
        RenderTokensSpelled(rest, groups[1..]);
    }
  }

  lemma {:induction false} RenderTokensAppend(a: seq<Token>, b: seq<Token>, groups: seq<string>)
    requires |groups| == DigitGroups(a) + DigitGroups(b)
    ensures DigitGroups(a + b) == |groups|
    ensures RenderTokens(a + b, groups) ==
      RenderTokens(a, groups[..DigitGroups(a)]) + RenderTokens(b, groups[DigitGroups(a)..])
    decreases a
  {
    DigitGroupsAppend(a, b);
    if a == [] {
      assert a + b == b && groups[..0] == [] && groups[0..] == groups;
    } else {
      assert (a + b)[1..] == a[1..] + b;
      if a[0].Digits? {
        RenderTokensAppend(a[1..], b, groups[1..]);
        assert groups[1..][..DigitGroups(a[1..])] == groups[..DigitGroups(a)][1..];
        assert groups[1..][DigitGroups(a[1..])..] == groups[DigitGroups(a)..];
      } else {
        RenderTokensAppend(a[1..], b, groups);
      }
    }
  }

  /** `testMain`'s example reply, written as a concatenation of the pieces
      a box is rendered in, which keeps the verifier from evaluating the scan
      of it eagerly. */
  const ExampleReply: string :=
    "<ref> A woman" + "</ref><box>(448,381),(726,797)</box>" + " playing with"
    + "<ref> her dog" + "</ref><box>(219,427),(580,891)</box>" + " on the beach"

  const Woman := MatchBox("A woman", 448, 381, 726, 797)
  const Dog := MatchBox("her dog", 219, 427, 580, 891)

  /** The tail pattern spelled out, half by half. */
  lemma TailPatternRender(g: seq<string>, first: seq<Token>, second: seq<Token>)
    requires TailPattern == [Spaces] + (first + second) && DigitGroups(first) == 2 && DigitGroups(second) == 2
    requires |g| == 4
    ensures DigitGroups(TailPattern) == 4
    ensures RenderTokens(TailPattern, g) == RenderTokens(first, g[..2]) + RenderTokens(second, g[2..])
  {
    TailPatternShape();
    RenderTokensAppend([Spaces], first + second, g);
    assert g[..0] == [] && g[0..] == g;
    RenderTokensAppend(first, second, g);
  }

  /** The first half spelled out with the digit groups `a` and `b`. */
  lemma FirstHalfRender(first: seq<Token>, a: string, b: string)
    requires first == [Lit("</ref><box>"), Spaces, Lit("("), Digits, Lit(","), Digits]
    requires DigitGroups(first) == 2
    ensures RenderTokens(first, [a, b]) == "</ref><box>(" + a + "," + b
  {
    var l1, l2, l3 := "</ref><box>", "(", ",";
    var t5 := [Digits];
    var t4 := [Lit(l3)] + t5;
    var t3 := [Digits] + t4;
    var t2 := [Lit(l2)] + t3;
    var t1 := [Spaces] + t2;
    assert first == [Lit(l1)] + t1;
    assert t4[1..] == t5 && t3[1..] == t4 && t2[1..] == t3 && t1[1..] == t2 && first[1..] == t1;
    assert [a, b][1..] == [b] && [b][1..] == [];
    assert DigitGroups(t5) == 1 && RenderTokens(t5, [b]) == b;
    assert DigitGroups(t4) == 1 && RenderTokens(t4, [b]) == l3 + b;
    assert DigitGroups(t3) == 2 && RenderTokens(t3, [a, b]) == a + (l3 + b);
    assert DigitGroups(t2) == 2 && RenderTokens(t2, [a, b]) == l2 + (a + (l3 + b));
    assert DigitGroups(t1) == 2 && RenderTokens(t1, [a, b]) == l2 + (a + (l3 + b));
    assert l1 + (l2 + (a + (l3 + b))) == l1 + l2 + a + l3 + b;
    assert l1 + l2 == "</ref><box>(";
  }

  /** The second half spelled out with the digit groups `c` and `d`. */
  lemma SecondHalfRender(second: seq<Token>, c: string, d: string)
    requires second == [Lit("),("), Digits, Lit(","), Digits, Lit(")"), Spaces, Lit("</box>")]
    requires DigitGroups(second) == 2
    ensures RenderTokens(second, [c, d]) == "),(" + c + "," + d + ")</box>"
  {
    var l1, l2, l3, l4 := "),(", ",", ")", "</box>";
    var t6 := [Lit(l4)];
    var t5 := [Spaces] + t6;
    var t4 := [Lit(l3)] + t5;
    var t3 := [Digits] + t4;
    var t2 := [Lit(l2)] + t3;
    var t1 := [Digits] + t2;
    assert second == [Lit(l1)] + t1;
    assert t6[1..] == [] && t5[1..] == t6 && t4[1..] == t5 && t3[1..] == t4 && t2[1..] == t3;
    assert t1[1..] == t2 && second[1..] == t1;
    assert [c, d][1..] == [d] && [d][1..] == [];
    assert DigitGroups(t6) == 0 && RenderTokens(t6, []) == l4;
    assert DigitGroups(t5) == 0 && RenderTokens(t5, []) == l4;
    assert DigitGroups(t4) == 0 && RenderTokens(t4, []) == l3 + l4;
    assert DigitGroups(t3) == 1 && RenderTokens(t3, [d]) == d + (l3 + l4);
    assert DigitGroups(t2) == 1 && RenderTokens(t2, [d]) == l2 + (d + (l3 + l4));
    assert DigitGroups(t1) == 2 && RenderTokens(t1, [c, d]) == c + (l2 + (d + (l3 + l4)));
    assert l1 + (c + (l2 + (d + (l3 + l4)))) == l1 + c + l2 + d + (l3 + l4);
    assert l3 + l4 == ")</box>";
  }

  /** The tail text is the tail pattern spelled out with the box's digits. */
  lemma TailTextTokens(b: MatchBox)
    ensures |Groups(b)| == DigitGroups(TailPattern)
    ensures TailText(b) == RenderTokens(TailPattern, Groups(b))
  {
    var first, second := TailHalves();
    var g := Groups(b);
    TailPatternRender(g, first, second);
    assert g[..2] == [g[0], g[1]] && g[2..] == [g[2], g[3]];
    FirstHalfRender(first, g[0], g[1]);
    SecondHalfRender(second, g[2], g[3]);
    assert "</ref><box>(" + g[0] + "," + g[1] + ("),(" + g[2] + "," + g[3] + ")</box>") == TailText(b);
  }

  lemma {:induction false} SpaceRunsAppend(a: seq<Token>, b: seq<Token>)
    ensures SpaceRuns(a + b) == SpaceRuns(a) + SpaceRuns(b)
  {
    if a != [] {
      assert (a + b)[1..] == a[1..] + b;
      SpaceRunsAppend(a[1..], b);
    } else {
      assert a + b == b;
    }
  }

  /** Spelling a concatenation of tokens is spelling each part with its share
      of the groups and of the runs. */
  lemma {:induction false} SpellTokensAppend(a: seq<Token>, b: seq<Token>, groups: seq<string>, runs: seq<string>)
    requires |groups| == DigitGroups(a) + DigitGroups(b) && |runs| == SpaceRuns(a) + SpaceRuns(b)
    ensures DigitGroups(a + b) == |groups| && SpaceRuns(a + b) == |runs|
    ensures SpellTokens(a + b, groups, runs) ==
      SpellTokens(a, groups[..DigitGroups(a)], runs[..SpaceRuns(a)])
      + SpellTokens(b, groups[DigitGroups(a)..], runs[SpaceRuns(a)..])
    decreases a
  {
    DigitGroupsAppend(a, b);
    SpaceRunsAppend(a, b);
    if a == [] {
      assert a + b == b && groups[..0] == [] && groups[0..] == groups && runs[..0] == [] && runs[0..] == runs;
    } else {
      assert (a + b)[1..] == a[1..] + b;
      match a[0]
      case Spaces =>
        SpellTokensAppend(a[1..], b, groups, runs[1..]);
        assert runs[1..][..SpaceRuns(a[1..])] == runs[..SpaceRuns(a)][1..];
        assert runs[1..][SpaceRuns(a[1..])..] == runs[SpaceRuns(a)..];
      case Lit(t) =>
        SpellTokensAppend(a[1..], b, groups, runs);
      case Digits =>
        SpellTokensAppend(a[1..], b, groups[1..], runs);
        assert groups[1..][..DigitGroups(a[1..])] == groups[..DigitGroups(a)][1..];
        assert groups[1..][DigitGroups(a[1..])..] == groups[DigitGroups(a)..];
    }
  }

  /** The first half of the tail, `l1 \s* l2 (\d+) l3 (\d+)`, spelled out
      with the run `w` and the digit groups `a` and `b`. */
  lemma FirstHalfSpelled(first: seq<Token>, l1: string, l2: string, l3: string, w: string, a: string, b: string)
    requires first == [Lit(l1), Spaces, Lit(l2), Digits, Lit(l3), Digits]
    ensures DigitGroups(first) == 2 && SpaceRuns(first) == 1
    ensures SpellTokens(first, [a, b], [w]) == l1 + w + l2 + a + l3 + b
  {
    var t5 := [Digits];
    var t4 := [Lit(l3)] + t5;
    var t3 := [Digits] + t4;
    var t2 := [Lit(l2)] + t3;
    var t1 := [Spaces] + t2;
    assert first == [Lit(l1)] + t1;
    assert t4[1..] == t5 && t3[1..] == t4 && t2[1..] == t3 && t1[1..] == t2 && first[1..] == t1;
    assert [a, b][1..] == [b] && [b][1..] == [] && [w][1..] == [];
    assert DigitGroups(t5) == 1 && SpaceRuns(t5) == 0 && SpellTokens(t5, [b], []) == b;
    assert DigitGroups(t4) == 1 && SpaceRuns(t4) == 0 && SpellTokens(t4, [b], []) == l3 + b;
    assert DigitGroups(t3) == 2 && SpaceRuns(t3) == 0 && SpellTokens(t3, [a, b], []) == a + (l3 + b);
    assert DigitGroups(t2) == 2 && SpaceRuns(t2) == 0 && SpellTokens(t2, [a, b], []) == l2 + (a + (l3 + b));
    assert DigitGroups(t1) == 2 && SpaceRuns(t1) == 1 && SpellTokens(t1, [a, b], [w]) == w + (l2 + (a + (l3 + b)));
    assert l1 + (w + (l2 + (a + (l3 + b)))) == l1 + w + l2 + a + l3 + b;
  }

  /** The second half of the tail, `l1 (\d+) l2 (\d+) l3 \s* l4`, spelled
      out with the digit groups `c` and `d` and the run `w`. */
  lemma SecondHalfSpelled(second: seq<Token>, l1: string, l2: string, l3: string, l4: string,
                          c: string, d: string, w: string)
    requires second == [Lit(l1), Digits, Lit(l2), Digits, Lit(l3), Spaces, Lit(l4)]
    ensures DigitGroups(second) == 2 && SpaceRuns(second) == 1
    ensures SpellTokens(second, [c, d], [w]) == l1 + c + l2 + d + l3 + w + l4
  {
    var t6 := [Lit(l4)];
    var t5 := [Spaces] + t6;
    var t4 := [Lit(l3)] + t5;
    var t3 := [Digits] + t4;
    var t2 := [Lit(l2)] + t3;
    var t1 := [Digits] + t2;
    assert second == [Lit(l1)] + t1;
    assert t5[1..] == t6 && t4[1..] == t5 && t3[1..] == t4 && t2[1..] == t3 && t1[1..] == t2 && second[1..] == t1;
    assert [c, d][1..] == [d] && [d][1..] == [] && [w][1..] == [];
    assert DigitGroups(t6) == 0 && SpaceRuns(t6) == 0 && SpellTokens(t6, [], []) == l4;
    assert DigitGroups(t5) == 0 && SpaceRuns(t5) == 1 && SpellTokens(t5, [], [w]) == w + l4;
    assert DigitGroups(t4) == 0 && SpaceRuns(t4) == 1 && SpellTokens(t4, [], [w]) == l3 + (w + l4);
    assert DigitGroups(t3) == 1 && SpaceRuns(t3) == 1 && SpellTokens(t3, [d], [w]) == d + (l3 + (w + l4));
    assert DigitGroups(t2) == 1 && SpaceRuns(t2) == 1 && SpellTokens(t2, [d], [w]) == l2 + (d + (l3 + (w + l4)));
    assert DigitGroups(t1) == 2 && SpaceRuns(t1) == 1
      && SpellTokens(t1, [c, d], [w]) == c + (l2 + (d + (l3 + (w + l4))));
    JoinSeven(l1, c, l2, d, l3, w, l4);
  }

  /** The tail of the pattern has three `\s*`. */
  lemma TailPatternRuns(first: seq<Token>, second: seq<Token>)
    requires first == [Lit("</ref><box>"), Spaces, Lit("("), Digits, Lit(","), Digits]
    requires second == [Lit("),("), Digits, Lit(","), Digits, Lit(")"), Spaces, Lit("</box>")]
    requires TailPattern == [Spaces] + (first + second)
    ensures SpaceRuns(TailPattern) == 3
  {
    FirstHalfSpelled(first, "</ref><box>", "(", ",", "", "", "");
    SecondHalfSpelled(second, "),(", ",", ")", "</box>", "", "", "");
    SpaceRunsAppend(first, second);
    SpaceRunsAppend([Spaces], first + second);
  }

  /** The tail of the pattern spelled out with four digit groups and three
      runs of whitespace. */
  lemma TailPatternSpelled(g: seq<string>, runs: seq<string>)
    requires |g| == 4 && |runs| == SpaceRuns(TailPattern)
    ensures DigitGroups(TailPattern) == 4 && SpaceRuns(TailPattern) == 3
    ensures SpellTokens(TailPattern, g, runs) == runs[0] + "</ref><box>" + runs[1] + "(" + g[0] + "," + g[1]
      + "),(" + g[2] + "," + g[3] + ")" + runs[2] + "</box>"
  {
    var first, second := TailHalves();
    TailPatternRuns(first, second);
    FirstHalfSpelled(first, "</ref><box>", "(", ",", runs[1], g[0], g[1]);
    SecondHalfSpelled(second, "),(", ",", ")", "</box>", g[2], g[3], runs[2]);
    SpaceRunsAppend(first, second);
    DigitGroupsAppend(first, second);
    SpellTokensAppend([Spaces], first + second, g, runs);
    assert g[..0] == [] && g[0..] == g && runs[..1] == [runs[0]];
    assert SpellTokens([Spaces], [], [runs[0]]) == runs[0];
    var rest := runs[1..];
    SpellTokensAppend(first, second, g, rest);
    assert g[..2] == [g[0], g[1]] && g[2..] == [g[2], g[3]];
    assert rest[..1] == [runs[1]] && rest[1..] == [runs[2]];
    JoinTail(runs[0], "</ref><box>", runs[1], "(", g[0], ",", g[1], "),(", g[2], ",", g[3], ")", runs[2], "</box>");
  }

  /** The decimal digits of a three-digit number. */
  lemma ThreeDigits(n: nat)
    requires 100 <= n < 1000
    ensures DecimalDigits(n) == [('0' as int + n / 100) as char, ('0' as int + n / 10 % 10) as char, ('0' as int + n % 10) as char]
  {
    assert DecimalDigits(n) == DecimalDigits(n / 10) + [('0' as int + n % 10) as char];
    assert DecimalDigits(n / 10) == DecimalDigits(n / 100) + [('0' as int + n / 10 % 10) as char];
  }

  lemma ExampleTailWoman()
    ensures TailText(Woman) == "</ref><box>(448,381),(726,797)</box>"
  {
    ThreeDigits(448);
    ThreeDigits(381);
    ThreeDigits(726);
    ThreeDigits(797);
  }

  lemma ExampleTailDog()
    ensures TailText(Dog) == "</ref><box>(219,427),(580,891)</box>"
  {
    ThreeDigits(219);
    ThreeDigits(427);
    ThreeDigits(580);
    ThreeDigits(891);
  }

  lemma ExampleRenderWoman()
    ensures Render(Woman) == "<ref> A woman" + "</ref><box>(448,381),(726,797)</box>"
  {
    ExampleTailWoman();
    assert "<ref> " + Woman.name == "<ref> A woman";
  }

  lemma ExampleRenderDog()
    ensures Render(Dog) == "<ref> her dog" + "</ref><box>(219,427),(580,891)</box>"
  {
    ExampleTailDog();
    assert "<ref> " + Dog.name == "<ref> her dog";
  }

  lemma LayoutOfTwo(g0: string, g1: string, g2: string, b1: MatchBox, b2: MatchBox)
    ensures Layout([g0, g1, g2], [b1, b2]) == (g0 + Render(b1) + g1) + (Render(b2) + g2)
  {
    assert [g0, g1, g2][1..] == [g1, g2] && [g1, g2][1..] == [g2];
    assert [b1, b2][1..] == [b2] && [b2][1..] == [];
    assert Layout([g1, g2], [b2]) == g1 + Render(b2) + g2;
    assert g0 + Render(b1) + (g1 + Render(b2) + g2) == (g0 + Render(b1) + g1) + (Render(b2) + g2);
  }

  /** The example is the two boxes with their surrounding words. */
  lemma ExampleLayout()
    ensures ExampleReply == Layout(["", " playing with", " on the beach"], [Woman, Dog])
  {
    ExampleRenderWoman();
    ExampleRenderDog();
    LayoutOfTwo("", " playing with", " on the beach", Woman, Dog);
    Regroup("<ref> A woman", "</ref><box>(448,381),(726,797)</box>", " playing with",
      "<ref> her dog", "</ref><box>(219,427),(580,891)</box>", " on the beach");
  }

  lemma ExampleNames()
    ensures PlainName(Woman.name) && PlainName(Dog.name)
  {
    assert Woman.name == "A woman" && Dog.name == "her dog";
  }

  lemma ExampleMatches()
    ensures Boxes(Matches(ExampleReply)) == [Woman, Dog]
  {
    var gaps, boxes := ["", " playing with", " on the beach"], [Woman, Dog];
    ExampleLayout();
    ExampleNames();
    assert forall g :: g in gaps ==> '<' !in g;
    assert forall b :: b in boxes ==> PlainName(b.name);
    MatchesLayout(gaps, boxes);
  }

  /** `testMain`: the example yields the woman's box, then the dog's. */
  method TestMain() returns (matches: seq<MatchBox>)
    ensures matches == [Woman, Dog]
  {
    matches := GetMatches(ExampleReply);
    ExampleMatches();
  }

  // ---------------------------------------------------------------------------
  // createMessageContent: the content of a multimodal chat message.
  // ---------------------------------------------------------------------------

  /** A file attached to the chat: the MIME type of its raw file, and its
      preview URL, absent when none was made. */
  datatype FilePreviewRaw = FilePreviewRaw(rawType: string, url: Option<string>)

  /** One entry of a content list: `{type: "image_url", image_url: {url}}` or
      `{type: "text", text}`. */
  datatype ContentPart = ImageUrl(url: string) | TextPart(text: string)

  /** A message content: the plain query string, or a list of entries. */
  datatype MessageContent = Plain(text: string) | Parts(parts: seq<ContentPart>)

  /** The filter of the map callback: the type mentions `image` and the URL is
      present and non-empty (an empty string is falsy). */
  predicate IsImageFile(f: FilePreviewRaw)
  {
    Contains(f.rawType, "image") && f.url.Some? && f.url.value != ""
  }

  /** The image entries pushed for `files`, in order. */
  function ImageEntries(files: seq<FilePreviewRaw>): seq<ContentPart>
  {
    if files == [] then []
    else
      var f := files[|files| - 1];
      ImageEntries(files[..|files| - 1]) + (if IsImageFile(f) then [ImageUrl(f.url.value)] else [])
  }

  /** `createMessageContent`: with no file, or an empty list, the query
      itself; otherwise one entry per image file, in order, then the query. */
  method CreateMessageContent(query: string, fileList: Option<seq<FilePreviewRaw>>) returns (content: MessageContent)
    ensures fileList.None? || fileList.value == [] ==> content == Plain(query)
    ensures fileList.Some? && fileList.value != [] ==>
      content == Parts(ImageEntries(fileList.value) + [TextPart(query)])
  {
    if fileList.Some? && |fileList.value| > 0 {
      var files := fileList.value;
      var imageList: seq<ContentPart> := [];
      for i := 0 to |files|
        invariant imageList == ImageEntries(files[..i])
      {
        var file := files[i];
        if Contains(file.rawType, "image") && file.url.Some? && file.url.value != "" {
          imageList := imageList + [ImageUrl(file.url.value)];
        }
        assert files[..i + 1][..i] == files[..i];
      }
      assert files[..|files|] == files;
      imageList := imageList + [TextPart(query)];
      return Parts(imageList);
    }
    return Plain(query);
  }

  lemma {:induction false} ImageEntriesAppend(a: seq<FilePreviewRaw>, b: seq<FilePreviewRaw>)
    ensures ImageEntries(a + b) == ImageEntries(a) + ImageEntries(b)
    decreases |b|
  {
    if b == [] {
      assert a + b == a;
    } else {
      var c := b[..|b| - 1];
      assert (a + b)[..|a + b| - 1] == a + c;
      ImageEntriesAppend(a, c);
    }
  }

  /** An image entry is there exactly for each image file with that URL. */
  lemma {:induction false} ImageEntriesMembers(files: seq<FilePreviewRaw>, u: string)
    ensures ImageUrl(u) in ImageEntries(files) <==>
      exists k :: 0 <= k < |files| && IsImageFile(files[k]) && files[k].url.value == u
  {
    if files != [] {
      var init, f := files[..|files| - 1], files[|files| - 1];
      ImageEntriesMembers(init, u);
      if ImageUrl(u) in ImageEntries(init) {
        var k :| 0 <= k < |init| && IsImageFile(init[k]) && init[k].url.value == u;
        assert files[k] == init[k];
      }
      if exists k :: 0 <= k < |files| && IsImageFile(files[k]) && files[k].url.value == u {
        var k :| 0 <= k < |files| && IsImageFile(files[k]) && files[k].url.value == u;
        if k < |init| {
          assert init[k] == files[k];
        }
      }
    }
  }

  /** Only image entries, at most one per file; with no image file among them
      the list holds no entry at all. */
  lemma {:induction false} ImageEntriesShape(files: seq<FilePreviewRaw>)
    ensures |ImageEntries(files)| <= |files|
    ensures forall p :: p in ImageEntries(files) ==> p.ImageUrl?
    ensures (forall k :: 0 <= k < |files| ==> !IsImageFile(files[k])) ==> ImageEntries(files) == []
  {
    if files != [] {
      var init := files[..|files| - 1];
      ImageEntriesShape(init);
      assert forall k :: 0 <= k < |init| ==> init[k] == files[k];
    }
  }

  /** The indices of the files that qualify as images. */
  function ImageIndices(files: seq<FilePreviewRaw>): set<nat>
  {
    set k: nat | k < |files| && IsImageFile(files[k])
  }

  /** There is exactly one image entry per qualifying file. */
  lemma {:induction false} ImageEntriesCount(files: seq<FilePreviewRaw>)
    ensures |ImageEntries(files)| == |ImageIndices(files)|
  {
    if files != [] {
      var n := |files|;
      ImageEntriesCount(files[..n - 1]);
      ImageIndicesLast(files);
      assert n - 1 !in ImageIndices(files[..n - 1]);
    }
  }

  /** Extending the file list by one file adds its index when it qualifies. */
  lemma ImageIndicesLast(files: seq<FilePreviewRaw>)
    requires files != []
    ensures var n := |files|;
      ImageIndices(files) == ImageIndices(files[..n - 1]) + (if IsImageFile(files[n - 1]) then {n - 1} else {})
  {
    var n := |files|;
    var init := files[..n - 1];
    var added: set<nat> := if IsImageFile(files[n - 1]) then {n - 1} else {};
    forall k: nat
      ensures k in ImageIndices(files) <==> k in ImageIndices(init) + added
    {
      if k < n - 1 {
        assert init[k] == files[k];
      }
    }
  }

  /** A file that does not qualify contributes nothing, wherever it stands. */
  lemma ImageEntriesSkip(a: seq<FilePreviewRaw>, f: FilePreviewRaw, b: seq<FilePreviewRaw>)
    requires !IsImageFile(f)
    ensures ImageEntries(a + [f] + b) == ImageEntries(a + b)
  {
    ImageEntriesAppend(a + [f], b);
    ImageEntriesAppend(a, [f]);
    ImageEntriesAppend(a, b);
    assert [f][..0] == [];
  }

  /** The query is the one text entry, and it comes last. */
  lemma ContentEndsWithQuery(query: string, files: seq<FilePreviewRaw>)
    ensures var parts := ImageEntries(files) + [TextPart(query)];
      parts[|parts| - 1] == TextPart(query) && forall k :: 0 <= k < |parts| - 1 ==> parts[k].ImageUrl?
    ensures |ImageEntries(files) + [TextPart(query)]| == |ImageIndices(files)| + 1
  {
    ImageEntriesShape(files);
    ImageEntriesCount(files);
    var parts := ImageEntries(files) + [TextPart(query)];
    forall k | 0 <= k < |parts| - 1 ensures parts[k].ImageUrl? {
      assert parts[k] == ImageEntries(files)[k];
      assert parts[k] in ImageEntries(files);
    }
  }

  // ---------------------------------------------------------------------------
  // Regrouping of concatenations. Each lemma is plain associativity over
  // variables. Proofs about long literal strings call them instead of leaving
  // the solver to regroup the literals itself, which makes those proofs slow
  // and unstable.
  // ---------------------------------------------------------------------------

  /** A non-empty sequence is its head followed by its tail. */
  lemma HeadTail<T>(xs: seq<T>)
    requires xs != []
    ensures [xs[0]] + xs[1..] == xs
  {
  }

  lemma JoinSeven(a: string, b: string, c: string, d: string, e: string, f: string, g: string)
    ensures a + (b + (c + (d + (e + (f + g))))) == a + b + c + d + e + f + g
  {
  }

  /** Two spelled halves after a run, joined into one flat text. */
  lemma JoinTail(r0: string, l1: string, r1: string, l2: string, a: string, l3: string, b: string,
                 l4: string, c: string, l5: string, d: string, l6: string, r2: string, l7: string)
    ensures r0 + ((l1 + r1 + l2 + a + l3 + b) + (l4 + c + l5 + d + l6 + r2 + l7))
      == r0 + l1 + r1 + l2 + a + l3 + b + l4 + c + l5 + d + l6 + r2 + l7
  {
  }

  lemma Regroup(a: string, b: string, c: string, d: string, e: string, f: string)
    ensures ("" + (a + b) + c) + ((d + e) + f) == a + b + c + d + e + f
  {
    assert "" + (a + b) == a + b;
    assert (a + b + c) + ((d + e) + f) == (a + b + c + (d + e)) + f;
    assert a + b + c + (d + e) == a + b + c + d + e;
  }
}
