/** The random name picker: the list of names parsed from the text box, the shuffle that shows
    twenty random names before choosing a winner, and the history of the last ten winners. */
module NamePicker {

  /* ---------------- parsing the text box ---------------- */

  /** The pieces of cur + s split at '\n', scanning s from the left with cur the line read so
      far; there is always at least one. */
  function LinesFrom(s: string, cur: string): (r: seq<string>)
    ensures |r| >= 1
    decreases |s|
  {
    if s == [] then [cur]
    else if s[0] == '\n' then [cur] + LinesFrom(s[1..], "")
    else LinesFrom(s[1..], cur + [s[0]])
  }

  /** The pieces of s.split('\n'), in order. */
  function Lines(s: string): (r: seq<string>)
    ensures |r| >= 1
  {
    LinesFrom(s, "")
  }

  /** The pieces joined back with line breaks. */
  function Join(lines: seq<string>): string
    requires |lines| >= 1
    decreases |lines|
  {
    if |lines| == 1 then lines[0] else lines[0] + "\n" + Join(lines[1..])
  }

  lemma {:induction false} JoinLinesFrom(s: string, cur: string)
    ensures Join(LinesFrom(s, cur)) == cur + s
    decreases |s|
  {
    if s != [] {
      if s[0] == '\n' {
        JoinLinesFrom(s[1..], "");
        var rest := LinesFrom(s[1..], "");
        assert LinesFrom(s, cur)[1..] == rest;
        assert cur + s == cur + "\n" + s[1..];
      } else {
        JoinLinesFrom(s[1..], cur + [s[0]]);
        assert cur + s == (cur + [s[0]]) + s[1..];
      }
    }
  }

  /** Splitting loses nothing: joining the lines gives the text back. */
  lemma JoinLines(s: string)
    ensures Join(Lines(s)) == s
  {
    JoinLinesFrom(s, "");
  }

  /** No line holds a line break. */
  lemma {:induction false} LinesFromHaveNoBreak(s: string, cur: string)
    requires '\n' !in cur
    ensures forall k :: 0 <= k < |LinesFrom(s, cur)| ==> '\n' !in LinesFrom(s, cur)[k]
    decreases |s|
  {
    if s != [] {
      if s[0] == '\n' {
        LinesFromHaveNoBreak(s[1..], "");
      } else {
        LinesFromHaveNoBreak(s[1..], cur + [s[0]]);
      }
    }
  }

  /** No piece of a split holds a line break. */
  lemma LinesHaveNoBreak(s: string)
    ensures forall k :: 0 <= k < |Lines(s)| ==> '\n' !in Lines(s)[k]
  {
    LinesFromHaveNoBreak(s, "");
  }

  /** Text without a line break only extends the current line. */
  lemma {:induction false} LinesFromSkip(first: string, rest: string, cur: string)
    requires '\n' !in first
    ensures LinesFrom(first + rest, cur) == LinesFrom(rest, cur + first)
    decreases |first|
  {
    if first != [] {
      assert (first + rest)[0] == first[0];
      assert (first + rest)[1..] == first[1..] + rest;
      LinesFromSkip(first[1..], rest, cur + [first[0]]);
      assert cur + [first[0]] + first[1..] == cur + first;
    } else {
      assert first + rest == rest && cur + first == cur;
    }
  }

  lemma {:induction false} SplitJoinFrom(lines: seq<string>, cur: string)
    requires |lines| >= 1 && forall k :: 0 <= k < |lines| ==> '\n' !in lines[k]
    ensures LinesFrom(Join(lines), cur) == [cur + lines[0]] + lines[1..]
    decreases |lines|
  {
    if |lines| == 1 {
      LinesFromSkip(lines[0], "", cur);
      assert lines[0] + "" == lines[0];
    } else {
      var tail := Join(lines[1..]);
      LinesFromSkip(lines[0], "\n" + tail, cur);
      assert lines[0] + "\n" + tail == lines[0] + ("\n" + tail);
      assert ("\n" + tail)[1..] == tail;
      SplitJoinFrom(lines[1..], "");
      assert "" + lines[1] == lines[1];
      assert [lines[1]] + lines[2..] == lines[1..];
    }
  }

  /** Joining lines without line breaks and splitting again gives the lines back. */
  lemma SplitJoin(lines: seq<string>)
    requires |lines| >= 1 && forall k :: 0 <= k < |lines| ==> '\n' !in lines[k]
    ensures Lines(Join(lines)) == lines
  {
    SplitJoinFrom(lines, "");
    assert "" + lines[0] == lines[0];
    assert [lines[0]] + lines[1..] == lines;
  }

  /** The characters String.prototype.trim removes: the ECMAScript white space and line
      terminators (tab, vertical tab, form feed, space, no-break space, byte-order mark, the
      space separators of Unicode 15, line feed, carriage return, line and paragraph separators). */
  predicate IsJsSpace(c: char)
  {
    c == '\t' || c == '\n' || c == '\U{000B}' || c == '\U{000C}' || c == '\r' || c == ' ' ||
    c == '\U{00A0}' || c == '\U{1680}' || ('\U{2000}' <= c <= '\U{200A}') || c == '\U{2028}' ||
    c == '\U{2029}' || c == '\U{202F}' || c == '\U{205F}' || c == '\U{3000}' || c == '\U{FEFF}'
  }

  /** s without its leading white space. */
  function TrimStart(s: string): (r: string)
    ensures |r| <= |s| && r == s[|s| - |r|..]
    ensures forall k :: 0 <= k < |s| - |r| ==> IsJsSpace(s[k])
    ensures r == [] || !IsJsSpace(r[0])
    decreases |s|
  {
    if s != [] && IsJsSpace(s[0]) then TrimStart(s[1..]) else s
  }

  /** s without its trailing white space. */
  function TrimEnd(s: string): (r: string)
    ensures |r| <= |s| && r == s[..|r|]
    ensures forall k :: |r| <= k < |s| ==> IsJsSpace(s[k])
    ensures r == [] || !IsJsSpace(r[|r| - 1])
    decreases |s|
  {
    if s != [] && IsJsSpace(s[|s| - 1]) then TrimEnd(s[..|s| - 1]) else s
  }

  /** Neither end of s is white space. */
  predicate IsTrimmed(s: string)
  {
    s == [] || (!IsJsSpace(s[0]) && !IsJsSpace(s[|s| - 1]))
  }

  /** String.prototype.trim: the text between the leading and the trailing white space. */
  function Trim(s: string): (r: string)
    ensures IsTrimmed(r) && |r| <= |s|
  {
    TrimEnd(TrimStart(s))
  }

  /** A text with no white space at either end is its own trim. */
  lemma TrimTrimmed(s: string)
    requires IsTrimmed(s)
    ensures Trim(s) == s
  {
    if s != [] {
      assert TrimStart(s) == s;
      assert TrimEnd(s) == s;
    }
  }

  /** Trimming a trimmed text changes nothing. */
  lemma TrimIdempotent(s: string)
    ensures Trim(Trim(s)) == Trim(s)
  {
    TrimTrimmed(Trim(s));
  }

  /** The lines trimmed, the blank ones dropped. */
  function NonBlank(lines: seq<string>): (r: seq<string>)
    ensures |r| <= |lines|
  {
    if lines == [] then []
    else
      var t := Trim(lines[0]);
      (if t != "" then [t] else []) + NonBlank(lines[1..])
  }

  /** The kept name at index k is non-empty and trimmed. */
  lemma {:induction false} NonBlankCleanAt(lines: seq<string>, k: nat)
    requires k < |NonBlank(lines)|
    ensures NonBlank(lines)[k] != "" && IsTrimmed(NonBlank(lines)[k])
  {
    var t := Trim(lines[0]);
    if t != "" && k == 0 {
      assert NonBlank(lines)[0] == t;
    } else {
      var j := if t != "" then k - 1 else k;
      assert NonBlank(lines)[k] == NonBlank(lines[1..])[j];
      NonBlankCleanAt(lines[1..], j);
    }
  }

  /** Every kept name is non-empty and trimmed. */
  lemma NonBlankClean(lines: seq<string>)
    ensures forall k :: 0 <= k < |NonBlank(lines)| ==> NonBlank(lines)[k] != "" && IsTrimmed(NonBlank(lines)[k])
  {
    forall k | 0 <= k < |NonBlank(lines)|
      ensures NonBlank(lines)[k] != "" && IsTrimmed(NonBlank(lines)[k])
    {
      NonBlankCleanAt(lines, k);
    }
  }

  /** A kept name is a non-blank trimmed line, with the index of that line. */
  lemma {:induction false} KeptIsLine(lines: seq<string>, name: string) returns (k: nat)
    requires name in NonBlank(lines)
    ensures name != "" && k < |lines| && Trim(lines[k]) == name
  {
    var t := Trim(lines[0]);
    if t != "" && name == t {
      k := 0;
    } else {
      assert name in NonBlank(lines[1..]);
      k := KeptIsLine(lines[1..], name);
      k := k + 1;
    }
  }

  /** The non-blank trim of any line is kept. */
  lemma {:induction false} LineIsKept(lines: seq<string>, name: string, k: nat)
    requires name != "" && k < |lines| && Trim(lines[k]) == name
    ensures name in NonBlank(lines)
  {
    var t := Trim(lines[0]);
    if k > 0 {
      LineIsKept(lines[1..], name, k - 1);
    }
  }

  /** A name is kept exactly when it is the trimmed form of some line and not blank. */
  lemma NonBlankMembers(lines: seq<string>, name: string)
    ensures name in NonBlank(lines) <==> name != "" && exists k :: 0 <= k < |lines| && Trim(lines[k]) == name
  {
    if name in NonBlank(lines) {
      var k := KeptIsLine(lines, name);
    }
    if name != "" && exists k :: 0 <= k < |lines| && Trim(lines[k]) == name {
      var k :| 0 <= k < |lines| && Trim(lines[k]) == name;
      LineIsKept(lines, name, k);
    }
  }

  /** Dropping blanks keeps the order: a list of non-blank names without surrounding white space
      passes through unchanged. */
  lemma {:induction false} NonBlankKeepsNames(lines: seq<string>)
    requires forall k :: 0 <= k < |lines| ==> lines[k] != "" && IsTrimmed(lines[k])
    ensures NonBlank(lines) == lines
  {
    if lines != [] {
      TrimTrimmed(lines[0]);
      NonBlankKeepsNames(lines[1..]);
    }
  }

  /** The names of the pick handler: the text's lines, trimmed, the blank ones dropped. */
  function ParseNames(input: string): seq<string>
  {
    NonBlank(Lines(input))
  }

  /** No parsed name is empty or has white space at either end. */
  lemma ParsedNamesAreClean(input: string)
    ensures forall k :: 0 <= k < |ParseNames(input)| ==>
              ParseNames(input)[k] != "" && Trim(ParseNames(input)[k]) == ParseNames(input)[k]
  {
    var names := ParseNames(input);
    NonBlankClean(Lines(input));
    forall k | 0 <= k < |names|
      ensures Trim(names[k]) == names[k]
    {
      TrimTrimmed(names[k]);
    }
  }

  /** A name is parsed exactly when it is one of the text's lines, trimmed, and not blank. */
  lemma ParseNamesMembers(input: string, lines: seq<string>, name: string)
    requires lines == Lines(input)
    ensures name in ParseNames(input) <==> name != "" && exists k :: 0 <= k < |lines| && Trim(lines[k]) == name
  {
    NonBlankMembers(lines, name);
  }

  /** Parsing the parsed names, one per line, gives them back in the same order. */
  lemma {:induction false} ParseJoinedNames(names: seq<string>)
    requires |names| >= 1
    requires forall k :: 0 <= k < |names| ==> names[k] != "" && IsTrimmed(names[k]) && '\n' !in names[k]
    ensures ParseNames(Join(names)) == names
  {
    SplitJoin(names);
    NonBlankKeepsNames(names);
  }

  /* ---------------- the draw ---------------- */

  /** The index floor(r * n) that a draw r in [0, 1) picks from n names. */
  function PickIndex(r: real, n: nat): (i: nat)
    requires 0.0 <= r < 1.0 && n > 0
    ensures i < n
    ensures i as real <= r * n as real < i as real + 1.0
  {
    assert r * n as real < n as real;
    (r * n as real).Floor
  }

  const MaxIterations: nat := 20
  const HistoryLimit: nat := 10

  /** addToHistory on the list of names shown: the new one goes first, and when that makes more
      than ten entries the last is removed. */
  function AddedToHistory(history: seq<string>, name: string): (r: seq<string>)
    ensures |r| == if |history| >= HistoryLimit then |history| else |history| + 1
    ensures r[0] == name && r[1..] == history[..|r| - 1]
  {
    var h := [name] + history;
    if |h| > HistoryLimit then h[..|h| - 1] else h
  }

  /** The sequence in reverse: the newest winner first. */
  function Reversed(ws: seq<string>): (r: seq<string>)
    ensures |r| == |ws|
    ensures forall k :: 0 <= k < |ws| ==> r[k] == ws[|ws| - 1 - k]
  {
    if ws == [] then [] else [ws[|ws| - 1]] + Reversed(ws[..|ws| - 1])
  }

  /** The history after the winners ws, oldest first, starting from an empty list. */
  function HistoryOf(ws: seq<string>): seq<string>
  {
    if ws == [] then [] else AddedToHistory(HistoryOf(ws[..|ws| - 1]), ws[|ws| - 1])
  }

  /** The history holds the last ten winners, newest first. */
  lemma {:induction false} HistoryIsLastTen(ws: seq<string>)
    ensures var n := if |ws| < HistoryLimit then |ws| else HistoryLimit;
            HistoryOf(ws) == Reversed(ws)[..n]
  {
    if ws != [] {
      var init := ws[..|ws| - 1];
      HistoryIsLastTen(init);
      var h := HistoryOf(init);
      var r := HistoryOf(ws);
      var n := if |ws| < HistoryLimit then |ws| else HistoryLimit;
      assert |r| == n;
      forall k | 0 <= k < n
        ensures r[k] == Reversed(ws)[k]
      {
        if k > 0 {
          assert r[k] == h[k - 1];
          assert init[|init| - 1 - (k - 1)] == ws[|ws| - 1 - k];
        }
      }
    }
  }

  /* ---------------- the page ---------------- */

  /** The outcome of a click on the pick button. */
  datatype PickOutcome = Ignored | NoNames | Started

  /** The state the page's closures share. */
  class Picker {
    /** isShuffling. */
    var isShuffling: bool
    /** The names of the running shuffle. */
    var names: seq<string>
    /** The ticks of the running shuffle so far. */
    var iterations: nat
    /** The name in the shuffling display. */
    var shown: string
    /** The winner's name in the result display. */
    var winnerName: string
    /** The history list's names, newest first. */
    var history: seq<string>

    /** While shuffling there are names to draw from and fewer than twenty ticks have passed;
        the history never holds more than ten names. */
    ghost predicate Valid()
      reads this
    {
      (isShuffling ==> |names| > 0 && iterations < MaxIterations) && |history| <= HistoryLimit
    }

    constructor ()
      ensures Valid() && !isShuffling && history == []
    {
      isShuffling, names, iterations := false, [], 0;
      shown, winnerName, history := "", "", [];
    }

    /** The pick button's handler on the current text of the names box. */
    method Pick(input: string) returns (outcome: PickOutcome)
      requires Valid()
      modifies this
      ensures Valid()
      ensures old(isShuffling) ==> outcome == Ignored && unchanged(this)
      ensures !old(isShuffling) && ParseNames(input) == [] ==> outcome == NoNames && unchanged(this)
      ensures !old(isShuffling) && ParseNames(input) != [] ==>
                outcome == Started && isShuffling && names == ParseNames(input) && iterations == 0 &&
                unchanged(this`shown, this`winnerName, this`history)
    {
      if isShuffling {
        return Ignored;
      }
      var ns := ParseNames(input);
      if |ns| == 0 {
        return NoNames;
      }
      StartShuffling(ns);
      outcome := Started;
    }

    /** startShuffling: the flag is set and a fresh tick count begins. */
    method StartShuffling(ns: seq<string>)
      requires Valid() && |ns| > 0
      modifies this`isShuffling, this`names, this`iterations
      ensures Valid()
      ensures isShuffling && names == ns && iterations == 0
      ensures shown == old(shown) && winnerName == old(winnerName) && history == old(history)
    {
      isShuffling := true;
      names := ns;
      iterations := 0;
    }

    /** One tick of the shuffle's interval, with its draw r for the name shown and, on the last
        tick, its draw w for the winner. The twentieth tick since the start shows the winner. */
    method ShuffleTick(r: real, w: real) returns (winner: string, done: bool)
      requires Valid() && isShuffling && 0.0 <= r < 1.0 && 0.0 <= w < 1.0
      modifies this
      ensures Valid()
      ensures shown == old(names)[PickIndex(r, |old(names)|)]
      ensures done <==> old(iterations) + 1 == MaxIterations
      ensures names == old(names)
      ensures !done ==> isShuffling && iterations == old(iterations) + 1 &&
                        winnerName == old(winnerName) && history == old(history)
      ensures done ==> winner == names[PickIndex(w, |names|)] && winner in names &&
                       !isShuffling && winnerName == winner && history == AddedToHistory(old(history), winner)
    {
      var randomIndex := (r * |names| as real).Floor;
      assert randomIndex == PickIndex(r, |names|);
      shown := names[randomIndex];
      iterations := iterations + 1;
      winner, done := "", false;
      if iterations >= MaxIterations {
        var winnerIndex := (w * |names| as real).Floor;
        assert winnerIndex == PickIndex(w, |names|);
        winner := names[winnerIndex];
        done := true;
        ShowWinner(winner);
      }
    }

    /** showWinner: the flag is cleared, the winner is displayed and added to the history. */
    method ShowWinner(winner: string)
      requires |history| <= HistoryLimit
      modifies this`isShuffling, this`winnerName, this`history
      ensures !isShuffling && winnerName == winner
      ensures history == AddedToHistory(old(history), winner) && |history| <= HistoryLimit
    {
      isShuffling := false;
      winnerName := winner;
      AddToHistory(winner);
    }

    /** addToHistory: insertion at the front, then removal of the last entry past ten. */
    method AddToHistory(name: string)
      modifies this`history
      ensures history == AddedToHistory(old(history), name)
    {
      history := [name] + history;
      if |history| > HistoryLimit {
        history := history[..|history| - 1];
      }
    }
  }
}
