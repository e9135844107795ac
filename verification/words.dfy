/**
  The integer arithmetic behind the "time saved" metric: the number of
  pieces `text.split(/\s+/)` yields, and `Math.round(words / 1.5)`.
 */
module Words {
  import opened Strings

  /** A whitespace character that starts a maximal whitespace run of `s`. */
  predicate RunStartAt(s: string, i: nat)
    requires i < |s|
  {
    IsWhitespace(s[i]) && (i == 0 || !IsWhitespace(s[i - 1]))
  }

  /** The number of maximal whitespace runs in `s`. */
  function WsRuns(s: string): nat
    decreases |s|
  {
    if |s| == 0 then 0
    else WsRuns(s[..|s| - 1]) + (if RunStartAt(s, |s| - 1) then 1 else 0)
  }

  /**
    `s.split(/\s+/).length`: every maximal whitespace run separates two
    pieces (possibly empty ones at the ends), so there is one piece more
    than there are runs.
   */
  function Pieces(s: string): (n: nat)
    ensures n >= 1
  {
    WsRuns(s) + 1
  }

  /** `Math.max(1, pieces)` of the trimmed text. */
  function WordCount(text: string): (w: nat)
    ensures w >= 1
  {
    Pieces(Trim(text))
  }

  /** A word: non-empty and free of whitespace. */
  predicate IsWord(w: string) {
    w != [] && forall i :: 0 <= i < |w| ==> !IsWhitespace(w[i])
  }

  predicate AllWords(ws: seq<string>) {
    forall i :: 0 <= i < |ws| ==> IsWord(ws[i])
  }

  lemma {:induction false} NoRuns(w: string)
    requires forall i :: 0 <= i < |w| ==> !IsWhitespace(w[i])
    ensures WsRuns(w) == 0
    decreases |w|
  {
    if |w| > 0 {
      NoRuns(w[..|w| - 1]);
    }
  }

  /** Appending text without whitespace adds no run. */
  lemma {:induction false} RunsAppendWord(a: string, w: string)
    requires forall i :: 0 <= i < |w| ==> !IsWhitespace(w[i])
    ensures WsRuns(a + w) == WsRuns(a)
    decreases |w|
  {
    if |w| > 0 {
      var s := a + w;
      assert s[..|s| - 1] == a + w[..|w| - 1];
      assert s[|s| - 1] == w[|w| - 1];
      RunsAppendWord(a, w[..|w| - 1]);
    } else {
      assert a + w == a;
    }
  }

  /** Appending one space after a word-final string adds exactly one run. */
  lemma RunsAppendSpace(a: string)
    requires a != [] && !IsWhitespace(a[|a| - 1])
    ensures WsRuns(a + " ") == WsRuns(a) + 1
  {
    var s := a + " ";
    assert s[..|s| - 1] == a;
    assert RunStartAt(s, |s| - 1);
  }

  /** Joining words with single spaces: the last character is the last word's. */
  lemma {:induction false} JoinEndsWithWord(ws: seq<string>)
    requires |ws| > 0 && AllWords(ws)
    ensures var j := Join(ws, " ");
            j != [] && !IsWhitespace(j[|j| - 1])
  {
    var last := ws[|ws| - 1];
    assert IsWord(last);
    if |ws| > 1 {
      var j := Join(ws, " ");
      assert j == Join(ws[..|ws| - 1], " ") + " " + last;
      assert j[|j| - 1] == last[|last| - 1];
    }
  }

  /** Words joined by single spaces count as that many words. */
  lemma {:induction false} PiecesOfJoin(ws: seq<string>)
    requires |ws| > 0 && AllWords(ws)
    ensures Pieces(Join(ws, " ")) == |ws|
    decreases |ws|
  {
    var last := ws[|ws| - 1];
    assert IsWord(last);
    if |ws| == 1 {
      NoRuns(last);
    } else {
      var init := ws[..|ws| - 1];
      assert AllWords(init);
      PiecesOfJoin(init);
      JoinEndsWithWord(init);
      var a := Join(init, " ");
      RunsAppendSpace(a);
      RunsAppendWord(a + " ", last);
    }
  }

  lemma {:induction false} JoinStartsWithWord(ws: seq<string>)
    requires |ws| > 0 && AllWords(ws)
    ensures var j := Join(ws, " ");
            j != [] && j[0] == ws[0][0]
    decreases |ws|
  {
    assert IsWord(ws[0]);
    if |ws| > 1 {
      var init := ws[..|ws| - 1];
      assert AllWords(init);
      JoinStartsWithWord(init);
      assert Join(ws, " ") == Join(init, " ") + " " + ws[|ws| - 1];
    }
  }

  /** A reply made of words separated by single spaces counts as that many words. */
  lemma WordCountOfWords(ws: seq<string>)
    requires |ws| > 0 && AllWords(ws)
    ensures WordCount(Join(ws, " ")) == |ws|
  {
    JoinStartsWithWord(ws);
    JoinEndsWithWord(ws);
    TrimOfTrimmed(Join(ws, " "));
    PiecesOfJoin(ws);
  }

  /**
    `Math.round(words / 1.5)` in integers. The quotient is never exactly
    halfway between two integers (that would need `4 * words` to be odd), so
    rounding half up is the unique nearest integer.
   */
  function TimeSavedSec(words: nat): (t: nat)
    ensures 6 * t <= 4 * words + 3 < 6 * t + 6
  {
    (4 * words + 3) / 6
  }

  /** The integer formula is the nearest integer to `words / 1.5`. */
  lemma TimeSavedIsRounded(words: nat)
    ensures var t := TimeSavedSec(words);
            t as real - 0.5 <= words as real / 1.5 < t as real + 0.5
  {
    var t := TimeSavedSec(words);
    assert 6 * t <= 4 * words + 3 < 6 * t + 6;
  }
}
