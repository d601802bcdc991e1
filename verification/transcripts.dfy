/**
 * Log artifacts as the exporter sees them: a file that can or cannot be
 * opened, and, once opened, its text read line by line the way
 * `bufio.Scanner` with its default `ScanLines` splitter reads it.
 */
module Transcripts {
  import opened Wrappers
  import opened GoStrings

  /** The files a run can see: path to full text. */
  type FileSystem = map<string, string>

  /**
   * os.Open / os.ReadFile: the text at `path`, or None when it cannot be
   * opened. The empty path never names a file.
   */
  function Read(fs: FileSystem, path: string): (content: Option<string>)
    ensures content.Some? ==> path != "" && path in fs && content.value == fs[path]
    ensures content.None? ==> path == "" || path !in fs
  {
    if path != "" && path in fs then Some(fs[path]) else None
  }

  /** bufio's dropCR: one trailing carriage return is not part of a line. */
  function DropCR(s: string): (t: string)
    ensures t == s || s == t + ['\r']
    ensures |s| > 0 && s[|s| - 1] == '\r' ==> |t| < |s|
  {
    if |s| > 0 && s[|s| - 1] == '\r' then s[..|s| - 1] else s
  }

  /**
   * The lines a bufio.Scanner with ScanLines yields for `text`: the text
   * between newlines, each without one trailing carriage return; a final
   * piece without a newline is a line when it is not empty.
   */
  function Lines(text: string): (lines: seq<string>)
    ensures forall k :: 0 <= k < |lines| ==> '\n' !in lines[k]
    decreases |text|
  {
    if text == [] then []
    else if '\n' in text then
      var i := IndexOf(text, '\n');
      assert '\n' !in DropCR(text[..i]);
      [DropCR(text[..i])] + Lines(text[i + 1..])
    else
      [DropCR(text)]
  }

  /** A text with a newline yields the line before it, then the lines after it. */
  lemma LinesStep(text: string)
    requires '\n' in text
    ensures var i := IndexOf(text, '\n'); Lines(text) == [DropCR(text[..i])] + Lines(text[i + 1..])
  {
  }

  /** The first line is the text before the first newline. */
  lemma FirstLine(text: string)
    requires '\n' in text
    ensures var i := IndexOf(text, '\n'); |Lines(text)| > 0 && Lines(text)[0] == DropCR(text[..i])
  {
    LinesStep(text);
  }

  /** The lines after the first one are the lines of the text after the first newline. */
  lemma LineAfterFirst(text: string, k: nat)
    requires '\n' in text && 0 < k < |Lines(text)|
    ensures var i := IndexOf(text, '\n'); k - 1 < |Lines(text[i + 1..])| && Lines(text)[k] == Lines(text[i + 1..])[k - 1]
  {
    LinesStep(text);
  }

  /**
   * `lines` are `pieces`, each without one trailing carriage return, except
   * that an empty last piece is not a line.
   */
  predicate MatchPieces(lines: seq<string>, pieces: seq<string>)
    requires |pieces| >= 1
  {
    var n := if pieces[|pieces| - 1] == [] then |pieces| - 1 else |pieces|;
    && |lines| == n
    && forall k :: 0 <= k < n ==> lines[k] == DropCR(pieces[k])
  }

  lemma ConsIndex<T>(x: T, s: seq<T>, k: nat)
    requires 0 < k <= |s|
    ensures ([x] + s)[k] == s[k - 1]
  {
  }

  /** The correspondence survives putting one more line in front of one more piece. */
  lemma MatchCons(line: string, lines: seq<string>, piece: string, pieces: seq<string>)
    requires |pieces| >= 1 && MatchPieces(lines, pieces) && line == DropCR(piece)
    ensures MatchPieces([line] + lines, [piece] + pieces)
  {
    var all := [piece] + pieces;
    assert all[|all| - 1] == pieces[|pieces| - 1];
    forall k | 0 < k < |lines| + 1
      ensures ([line] + lines)[k] == DropCR(all[k])
    {
      ConsIndex(line, lines, k);
      ConsIndex(piece, pieces, k);
    }
  }

  /** The correspondence carries over from the text after the first newline to the whole text. */
  lemma PiecesAfterFirst(text: string)
    requires '\n' in text
    requires MatchPieces(Lines(text[IndexOf(text, '\n') + 1..]), Split(text[IndexOf(text, '\n') + 1..], '\n'))
    ensures MatchPieces(Lines(text), Split(text, '\n'))
  {
    var i := IndexOf(text, '\n');
    var rest := text[i + 1..];
    LinesStep(text);
    assert Split(text, '\n') == [text[..i]] + Split(rest, '\n');
    MatchCons(DropCR(text[..i]), Lines(rest), text[..i], Split(rest, '\n'));
  }

  /** bufio.Scanner's lines are strings.Split's pieces on newline, as described above. */
  lemma {:induction false} LinesAreSplitPieces(text: string)
    ensures MatchPieces(Lines(text), Split(text, '\n'))
    decreases |text|
  {
    if '\n' in text {
      LinesAreSplitPieces(text[IndexOf(text, '\n') + 1..]);
      PiecesAfterFirst(text);
    }
  }

  /** A text with no newline and no trailing carriage return is one line. */
  lemma SingleLine(text: string)
    requires text != [] && '\n' !in text && text[|text| - 1] != '\r'
    ensures Lines(text) == [text]
  {
  }

  /** An occurrence that does not end on the dropped carriage return survives DropCR. */
  lemma ContainsDropCR(s: string, m: string)
    requires m != [] && m[|m| - 1] != '\r'
    ensures Contains(DropCR(s), m) <==> Contains(s, m)
  {
    var t := DropCR(s);
    if Contains(t, m) {
      assert s[0..|t|] == t;
      ContainsInSlice(s, 0, |t|, m);
    }
    if Contains(s, m) && t != s {
      var i: nat :| i <= |s| - |m| && OccursAt(s, m, i);
      assert s[i + |m| - 1] == m[|m| - 1];
      assert t[i..i + |m|] == s[i..i + |m|];
      assert OccursAt(t, m, i);
    }
  }

  lemma ContainsInLinePrefix(text: string, n: nat, m: string)
    requires n <= |text| && Contains(DropCR(text[..n]), m)
    ensures Contains(text, m)
  {
    var p := DropCR(text[..n]);
    assert text[0..|p|] == p;
    ContainsInSlice(text, 0, |p|, m);
  }

  lemma ContainsInRest(text: string, n: nat, m: string)
    requires n <= |text| && Contains(text[n..], m)
    ensures Contains(text, m)
  {
    assert text[n..|text|] == text[n..];
    ContainsInSlice(text, n, |text|, m);
  }

  lemma OccursInHead(text: string, i: nat, m: string, j: nat)
    requires j + |m| <= i <= |text| && OccursAt(text, m, j)
    ensures Contains(text[..i], m)
  {
    assert text[..i][j..j + |m|] == text[j..j + |m|];
    assert OccursAt(text[..i], m, j);
  }

  lemma OccursInTail(text: string, i: nat, m: string, j: nat)
    requires i < j && OccursAt(text, m, j)
    ensures Contains(text[i + 1..], m)
  {
    var tail := text[i + 1..];
    assert tail[j - i - 1..j - i - 1 + |m|] == text[j..j + |m|];
    assert OccursAt(tail, m, j - i - 1);
  }

  /** Every line of a transcript is a piece of its text. */
  lemma {:induction false} LineInText(text: string, m: string, k: nat)
    requires k < |Lines(text)| && Contains(Lines(text)[k], m)
    ensures Contains(text, m)
    decreases |text|
  {
    if '\n' !in text {
      assert text[..|text|] == text;
      ContainsInLinePrefix(text, |text|, m);
    } else {
      var i := IndexOf(text, '\n');
      if k == 0 {
        FirstLine(text);
        ContainsInLinePrefix(text, i, m);
      } else {
        var tail := text[i + 1..];
        LineAfterFirst(text, k);
        LineInText(tail, m, k - 1);
        ContainsInRest(text, i + 1, m);
      }
    }
  }

  /** A marker without a newline, not ending in a carriage return, that occurs in the text lies on one line. */
  lemma {:induction false} TextOnLine(text: string, m: string) returns (k: nat)
    requires m != [] && '\n' !in m && m[|m| - 1] != '\r'
    requires Contains(text, m)
    ensures k < |Lines(text)| && Contains(Lines(text)[k], m)
    decreases |text|
  {
    if '\n' !in text {
      ContainsDropCR(text, m);
      k := 0;
    } else {
      var i := IndexOf(text, '\n');
      var j: nat :| j <= |text| - |m| && OccursAt(text, m, j);
      if j + |m| <= i {
        OccursInHead(text, i, m, j);
        ContainsDropCR(text[..i], m);
        FirstLine(text);
        k := 0;
      } else if j > i {
        OccursInTail(text, i, m, j);
        var tail := text[i + 1..];
        var k' := TextOnLine(tail, m);
        k := k' + 1;
        LineAfterFirst(text, k);
      } else {
        assert false;
      }
    }
  }

  /**
   * A marker without a newline, not ending in a carriage return, is on some
   * line of a transcript exactly when it occurs anywhere in its text.
   */
  lemma LinesContain(text: string, m: string)
    requires m != [] && '\n' !in m && m[|m| - 1] != '\r'
    ensures (exists k :: 0 <= k < |Lines(text)| && Contains(Lines(text)[k], m)) <==> Contains(text, m)
  {
    if Contains(text, m) {
      var k := TextOnLine(text, m);
    }
    forall k | 0 <= k < |Lines(text)| && Contains(Lines(text)[k], m)
      ensures Contains(text, m)
    {
      LineInText(text, m, k);
    }
  }
}
