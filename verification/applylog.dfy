/**
 * parseLogStats: the actual resource counts an apply log reports on its
 * "Apply complete!" summary line.
 *
 * Every line holding the marker is read: the text between its first and
 * second colon is split on commas, each segment into white-space separated
 * tokens, and a segment "<n> <keyword>" stores Atoi(<n>) in the bucket whose
 * name is exactly <keyword>. A later report for a bucket overwrites an
 * earlier one.
 */
module ApplyLog {
  import opened Wrappers
  import opened GoStrings
  import opened Transcripts

  const Marker := "Apply complete!"

  /** The four named results of parseLogStats. */
  datatype Counts = Counts(added: int, changed: int, destroyed: int, imported: int)

  const Zero := Counts(0, 0, 0, 0)

  /** Every bucket holds a value of Go's 64-bit `int`. */
  predicate InRange(c: Counts)
  {
    && MinInt64 <= c.added <= MaxInt64 && MinInt64 <= c.changed <= MaxInt64
    && MinInt64 <= c.destroyed <= MaxInt64 && MinInt64 <= c.imported <= MaxInt64
  }

  /** The cases of the switch on a segment's second token. */
  predicate IsKeyword(k: string)
  {
    k == "added" || k == "changed" || k == "destroyed" || k == "imported"
  }

  /** The bucket a keyword names. */
  function Bucket(c: Counts, k: string): int
    requires IsKeyword(k)
  {
    if k == "added" then c.added
    else if k == "changed" then c.changed
    else if k == "destroyed" then c.destroyed
    else c.imported
  }

  /**
   * The switch on parts[1]: the bucket named exactly by `keyword` receives
   * `count`; any other keyword changes nothing.
   */
  function Route(c: Counts, keyword: string, count: int): (r: Counts)
    ensures IsKeyword(keyword) ==> Bucket(r, keyword) == count
    ensures forall k :: IsKeyword(k) && k != keyword ==> Bucket(r, k) == Bucket(c, k)
    ensures !IsKeyword(keyword) ==> r == c
    ensures InRange(c) && MinInt64 <= count <= MaxInt64 ==> InRange(r)
  {
    if keyword == "added" then c.(added := count)
    else if keyword == "changed" then c.(changed := count)
    else if keyword == "destroyed" then c.(destroyed := count)
    else if keyword == "imported" then c.(imported := count)
    else c
  }

  /** One comma-separated segment of the statistics clause. */
  function ApplySegment(c: Counts, stat: string): (r: Counts)
    ensures InRange(c) ==> InRange(r)
  {
    var parts := Fields(TrimSpace(stat));
    if |parts| < 2 then c else Route(c, parts[1], Atoi(parts[0]))
  }

  function ApplySegments(c: Counts, stats: seq<string>): (r: Counts)
    ensures InRange(c) ==> InRange(r)
  {
    if stats == [] then c
    else ApplySegment(ApplySegments(c, stats[..|stats| - 1]), stats[|stats| - 1])
  }

  /** fields[1] of strings.Split(line, ":"), when the line has a colon. */
  function StatsClause(line: string): (clause: Option<string>)
    ensures clause.Some? ==> ':' in line && ':' !in clause.value
  {
    var fields := Split(line, ':');
    if |fields| < 2 then None else Some(fields[1])
  }

  /** One scanned line: only a marker line with a colon is read. */
  function ApplyLine(c: Counts, line: string): (r: Counts)
    ensures InRange(c) ==> InRange(r)
  {
    if !Contains(line, Marker) then c
    else
      match StatsClause(line)
      case None => c
      case Some(clause) => ApplySegments(c, Split(clause, ','))
  }

  function ApplyLines(c: Counts, lines: seq<string>): (r: Counts)
    ensures InRange(c) ==> InRange(r)
  {
    if lines == [] then c
    else ApplyLine(ApplyLines(c, lines[..|lines| - 1]), lines[|lines| - 1])
  }

  /** What parseLogStats returns for a log that can (Some) or cannot (None) be opened. */
  function LogStats(content: Option<string>): (r: Counts)
    ensures InRange(r)
  {
    match content
    case None => Zero
    case Some(text) => ApplyLines(Zero, Lines(text))
  }

  /**
   * The loop of parseLogStats over the comma-separated segments of one
   * statistics clause, starting from the counts read so far.
   */
  method ReadSegments(c: Counts, stats: seq<string>) returns (r: Counts)
    ensures r == ApplySegments(c, stats)
  {
    r := c;
    for j := 0 to |stats|
      invariant r == ApplySegments(c, stats[..j])
    {
      assert stats[..j + 1][..j] == stats[..j];
      var parts := Fields(TrimSpace(stats[j]));
      if |parts| < 2 {
        continue;
      }
      var count := Atoi(parts[0]);
      if parts[1] == "added" {
        r := r.(added := count);
      } else if parts[1] == "changed" {
        r := r.(changed := count);
      } else if parts[1] == "destroyed" {
        r := r.(destroyed := count);
      } else if parts[1] == "imported" {
        r := r.(imported := count);
      }
    }
    assert stats[..|stats|] == stats;
  }

  /** parseLogStats: the scanner loop over the lines of the apply log. */
  method ParseLogStats(fs: FileSystem, path: string) returns (added: int, changed: int, destroyed: int, imported: int)
    ensures Counts(added, changed, destroyed, imported) == LogStats(Read(fs, path))
  {
    added, changed, destroyed, imported := 0, 0, 0, 0;
    var content := Read(fs, path);
    if content.None? {
      return;
    }
    var lines := Lines(content.value);
    for i := 0 to |lines|
      invariant Counts(added, changed, destroyed, imported) == ApplyLines(Zero, lines[..i])
    {
      assert lines[..i + 1][..i] == lines[..i];
      var line := lines[i];
      if Contains(line, Marker) {
        var fields := Split(line, ':');
        if |fields| < 2 {
          continue;
        }
        var stats := Split(fields[1], ',');
        var r := ReadSegments(Counts(added, changed, destroyed, imported), stats);
        added, changed, destroyed, imported := r.added, r.changed, r.destroyed, r.imported;
      }
    }
    assert lines[..|lines|] == lines;
  }

  // ---------------------------------------------------------------------
  // Where the statistics clause comes from
  // ---------------------------------------------------------------------

  /**
   * A line has a statistics clause exactly when it has a colon, and the
   * clause is the text after the first colon up to the second colon or the
   * end of the line.
   */
  lemma StatsClauseBetweenColons(line: string)
    ensures StatsClause(line).None? <==> ':' !in line
    ensures StatsClause(line).Some? ==>
      var i := IndexOf(line, ':');
      var clause := StatsClause(line).value;
      && clause <= line[i + 1..]
      && ':' !in clause
      && (i + 1 + |clause| == |line| || line[i + 1 + |clause|] == ':')
  {
    if ':' in line {
      var i := IndexOf(line, ':');
      var rest := line[i + 1..];
      assert Split(line, ':') == [line[..i]] + Split(rest, ':');
      assert StatsClause(line) == Some(Split(rest, ':')[0]);
    }
  }

  /** A marker line without a colon is skipped. */
  lemma MarkerLineWithoutColonIgnored(c: Counts, line: string)
    requires ':' !in line
    ensures ApplyLine(c, line) == c
  {
    StatsClauseBetweenColons(line);
  }

  // ---------------------------------------------------------------------
  // Logs without a summary
  // ---------------------------------------------------------------------

  lemma {:induction false} ApplyLinesWithoutMarker(c: Counts, lines: seq<string>)
    requires forall k :: 0 <= k < |lines| ==> !Contains(lines[k], Marker)
    ensures ApplyLines(c, lines) == c
  {
    if lines != [] {
      ApplyLinesWithoutMarker(c, lines[..|lines| - 1]);
    }
  }

  /**
   * An apply log that cannot be opened, or whose text never says
   * "Apply complete!", reports all four counts as zero.
   */
  lemma NoSummaryAllZero(content: Option<string>)
    requires content.Some? ==> !Contains(content.value, Marker)
    ensures LogStats(content) == Zero
  {
    if content.Some? {
      var text := content.value;
      var lines := Lines(text);
      LinesContain(text, Marker);
      forall k | 0 <= k < |lines|
        ensures !Contains(lines[k], Marker)
      {
        if Contains(Lines(text)[k], Marker) {
          assert exists k' :: 0 <= k' < |Lines(text)| && Contains(Lines(text)[k'], Marker);
          assert false;
        }
      }
      ApplyLinesWithoutMarker(Zero, lines);
    }
  }

  // ---------------------------------------------------------------------
  // The last report of a keyword wins
  // ---------------------------------------------------------------------

  /** A "<count> <keyword>" report read from one segment. */
  datatype Report = Report(keyword: string, count: int)

  function SegmentReports(stat: string): seq<Report>
  {
    var parts := Fields(TrimSpace(stat));
    if |parts| < 2 then [] else [Report(parts[1], Atoi(parts[0]))]
  }

  function SegmentsReports(stats: seq<string>): seq<Report>
  {
    if stats == [] then []
    else SegmentsReports(stats[..|stats| - 1]) + SegmentReports(stats[|stats| - 1])
  }

  function LineReports(line: string): seq<Report>
  {
    if !Contains(line, Marker) then []
    else
      match StatsClause(line)
      case None => []
      case Some(clause) => SegmentsReports(Split(clause, ','))
  }

  /** Every report of a transcript, in the order the scanner meets them. */
  function TranscriptReports(lines: seq<string>): seq<Report>
  {
    if lines == [] then []
    else TranscriptReports(lines[..|lines| - 1]) + LineReports(lines[|lines| - 1])
  }

  /** The count of the last report for keyword `k`, or `default` when there is none. */
  function LastCount(rs: seq<Report>, k: string, default: int): int
  {
    if rs == [] then default
    else if rs[|rs| - 1].keyword == k then rs[|rs| - 1].count
    else LastCount(rs[..|rs| - 1], k, default)
  }

  lemma {:induction false} LastCountAppend(a: seq<Report>, b: seq<Report>, k: string, default: int)
    ensures LastCount(a + b, k, default) == LastCount(b, k, LastCount(a, k, default))
  {
    if b == [] {
      assert a + b == a;
    } else {
      assert (a + b)[..|a + b| - 1] == a + b[..|b| - 1];
      LastCountAppend(a, b[..|b| - 1], k, default);
    }
  }

  lemma SegmentLastWins(c: Counts, stat: string, k: string)
    requires IsKeyword(k)
    ensures Bucket(ApplySegment(c, stat), k) == LastCount(SegmentReports(stat), k, Bucket(c, k))
  {
  }

  lemma {:induction false} SegmentsLastWins(c: Counts, stats: seq<string>, k: string)
    requires IsKeyword(k)
    ensures Bucket(ApplySegments(c, stats), k) == LastCount(SegmentsReports(stats), k, Bucket(c, k))
  {
    if stats != [] {
      var init := stats[..|stats| - 1];
      var last := stats[|stats| - 1];
      SegmentsLastWins(c, init, k);
      SegmentLastWins(ApplySegments(c, init), last, k);
      LastCountAppend(SegmentsReports(init), SegmentReports(last), k, Bucket(c, k));
    }
  }

  lemma LineLastWins(c: Counts, line: string, k: string)
    requires IsKeyword(k)
    ensures Bucket(ApplyLine(c, line), k) == LastCount(LineReports(line), k, Bucket(c, k))
  {
    if Contains(line, Marker) && StatsClause(line).Some? {
      SegmentsLastWins(c, Split(StatsClause(line).value, ','), k);
    }
  }

  lemma {:induction false} LinesLastWins(c: Counts, lines: seq<string>, k: string)
    requires IsKeyword(k)
    ensures Bucket(ApplyLines(c, lines), k) == LastCount(TranscriptReports(lines), k, Bucket(c, k))
  {
    if lines != [] {
      var init := lines[..|lines| - 1];
      var last := lines[|lines| - 1];
      LinesLastWins(c, init, k);
      LineLastWins(ApplyLines(c, init), last, k);
      LastCountAppend(TranscriptReports(init), LineReports(last), k, Bucket(c, k));
    }
  }

  /**
   * Each bucket holds the count of the last report for its keyword across
   * all summary lines of the log, or 0 when no line reports it.
   */
  lemma LastReportWins(text: string, k: string)
    requires IsKeyword(k)
    ensures Bucket(LogStats(Some(text)), k) == LastCount(TranscriptReports(Lines(text)), k, 0)
  {
    LinesLastWins(Zero, Lines(text), k);
  }

  // ---------------------------------------------------------------------
  // The summary line terraform prints
  // ---------------------------------------------------------------------

  /**
   * The summary terraform prints at the end of an apply:
   * "Apply complete! Resources: <a> added, <c> changed, <d> destroyed."
   */
  function SummaryLine(added: nat, changed: nat, destroyed: nat): string
  {
    SummaryText(Decimal(added), Decimal(changed), Decimal(destroyed))
  }

  /** The summary line with count tokens `a`, `c` and `d`. */
  function SummaryText(a: string, c: string, d: string): string
  {
    Join([SummaryHead, Join(SummarySegments(a, c, d), ',')], ':')
  }

  const SummaryHead := "Apply complete! Resources"

  /** The comma-separated segments of the summary's statistics clause. */
  function SummarySegments(a: string, c: string, d: string): seq<string>
  {
    [Spaced([a, "added"]), Spaced([c, "changed"]), Spaced([d, "destroyed."])]
  }

  /** A count token that fits in the summary line without changing its shape. */
  predicate IsToken(w: string)
  {
    w != [] && NoSpace(w) && ':' !in w && ',' !in w && '\n' !in w
  }

  lemma SpacedPair(w1: string, w2: string)
    ensures Spaced([w1, w2]) == " " + w1 + " " + w2
  {
    assert [w2][1..] == [];
    assert Spaced([w2]) == [' '] + w2 + Spaced([]);
    assert [w1, w2][1..] == [w2];
    assert Spaced([w1, w2]) == [' '] + w1 + Spaced([w2]);
  }

  lemma JoinTriple(x: string, y: string, z: string, sep: char)
    ensures Join([x, y, z], sep) == x + [sep] + y + [sep] + z
  {
    assert [x, y, z][1..] == [y, z];
    assert [y, z][1..] == [z];
    assert Join([y, z], sep) == y + [sep] + z;
  }

  lemma JoinPair(x: string, y: string, sep: char)
    ensures Join([x, y], sep) == x + [sep] + y
  {
    assert [x, y][1..] == [y];
  }

  /** A character that is in no piece and is not the separator is not in the join. */
  lemma {:induction false} JoinWithout(pieces: seq<string>, sep: char, ch: char)
    requires |pieces| >= 1 && ch != sep
    requires forall k :: 0 <= k < |pieces| ==> ch !in pieces[k]
    ensures ch !in Join(pieces, sep)
  {
    if |pieces| > 1 {
      JoinWithout(pieces[1..], sep, ch);
    }
  }

  lemma SegmentWithout(w: string, word: string, ch: char)
    requires ch !in w && ch !in word && ch != ' '
    ensures ch !in Spaced([w, word])
  {
    SpacedPair(w, word);
  }

  lemma SegmentsWithout(a: string, c: string, d: string, ch: char)
    requires IsToken(a) && IsToken(c) && IsToken(d)
    requires ch == ':' || ch == ',' || ch == '\n'
    ensures forall k :: 0 <= k < 3 ==> ch !in SummarySegments(a, c, d)[k]
  {
    SegmentWithout(a, "added", ch);
    SegmentWithout(c, "changed", ch);
    SegmentWithout(d, "destroyed.", ch);
  }

  /** The comma-separated clause splits back into the three segments. */
  lemma SummaryClauseSplits(a: string, c: string, d: string)
    requires IsToken(a) && IsToken(c) && IsToken(d)
    ensures Split(Join(SummarySegments(a, c, d), ','), ',') == SummarySegments(a, c, d)
  {
    SegmentsWithout(a, c, d, ',');
    SplitJoin(SummarySegments(a, c, d), ',');
  }

  lemma HeadWithoutColon()
    ensures ':' !in SummaryHead && '\n' !in SummaryHead
  {
  }

  /** The text after the summary's only colon is the comma-separated clause. */
  lemma SummaryTextSplits(a: string, c: string, d: string)
    requires IsToken(a) && IsToken(c) && IsToken(d)
    ensures StatsClause(SummaryText(a, c, d)) == Some(Join(SummarySegments(a, c, d), ','))
  {
    var segs := SummarySegments(a, c, d);
    SegmentsWithout(a, c, d, ':');
    var clause := Join(segs, ',');
    JoinWithout(segs, ',', ':');
    HeadWithoutColon();
    SplitJoin([SummaryHead, clause], ':');
  }

  lemma SummaryTextIsOneMarkerLine(a: string, c: string, d: string)
    requires IsToken(a) && IsToken(c) && IsToken(d)
    ensures Contains(SummaryText(a, c, d), Marker)
    ensures Lines(SummaryText(a, c, d)) == [SummaryText(a, c, d)]
  {
    var segs := SummarySegments(a, c, d);
    var clause := Join(segs, ',');
    var line := SummaryText(a, c, d);
    JoinPair(SummaryHead, clause, ':');
    assert line == [] + Marker + (" Resources" + [':'] + clause);
    ContainsInfix([], Marker, " Resources" + [':'] + clause);
    SegmentsWithout(a, c, d, '\n');
    JoinWithout(segs, ',', '\n');
    assert '\n' !in SummaryHead;
    JoinWithout([SummaryHead, clause], ':', '\n');
    JoinTriple(segs[0], segs[1], segs[2], ',');
    SpacedPair(d, "destroyed.");
    assert line[|line| - 1] == '.';
    SingleLine(line);
  }

  /** A segment " <token> <word>" stores Atoi(<token>) under <word>. */
  lemma SegmentOfWords(c: Counts, w: string, word: string)
    requires w != [] && NoSpace(w)
    requires word != [] && NoSpace(word)
    ensures ApplySegment(c, Spaced([w, word])) == Route(c, word, Atoi(w))
  {
    var stat := Spaced([w, word]);
    FieldsTrimSpace(stat);
    FieldsSpaced([w, word]);
    assert Fields(TrimSpace(stat)) == [w, word];
  }

  /** The three segments of a three-segment clause apply in order. */
  lemma ThreeSegments(c: Counts, segs: seq<string>)
    requires |segs| == 3
    ensures ApplySegments(c, segs) == ApplySegment(ApplySegment(ApplySegment(c, segs[0]), segs[1]), segs[2])
  {
    var s1, s2 := segs[..1], segs[..2];
    assert s1[..0] == [];
    assert ApplySegments(c, s1) == ApplySegment(c, segs[0]);
    assert s2[..1] == s1;
    assert ApplySegments(c, s2) == ApplySegment(ApplySegments(c, s1), segs[1]);
  }

  lemma SummaryWordsHaveNoSpace()
    ensures NoSpace("added") && NoSpace("changed") && NoSpace("destroyed.")
  {
    KeywordHasNoSpace("added");
    KeywordHasNoSpace("changed");
    var w := "destroyed.";
    assert forall k :: 0 <= k < |w| ==> w[k] in "destroyed.";
  }

  lemma SummarySegmentsRead(a: string, c: string, d: string)
    requires IsToken(a) && IsToken(c) && IsToken(d)
    ensures ApplySegments(Zero, SummarySegments(a, c, d)) == Counts(Atoi(a), Atoi(c), 0, 0)
  {
    var segs := SummarySegments(a, c, d);
    SummaryWordsHaveNoSpace();
    var c1, c2 := Counts(Atoi(a), 0, 0, 0), Counts(Atoi(a), Atoi(c), 0, 0);
    ThreeSegments(Zero, segs);
    SegmentOfWords(Zero, a, "added");
    assert ApplySegment(Zero, segs[0]) == c1;
    SegmentOfWords(c1, c, "changed");
    assert ApplySegment(c1, segs[1]) == c2;
    SegmentOfWords(c2, d, "destroyed.");
    assert ApplySegment(c2, segs[2]) == c2;
  }

  /** A transcript of one marker line with a statistics clause reads that clause's segments. */
  lemma OneSummaryLine(line: string, clause: string, segs: seq<string>)
    requires Contains(line, Marker) && Lines(line) == [line]
    requires StatsClause(line) == Some(clause) && Split(clause, ',') == segs
    ensures LogStats(Some(line)) == ApplySegments(Zero, segs)
  {
    assert [line][..0] == [];
    assert ApplyLines(Zero, [line]) == ApplyLine(Zero, line);
    assert ApplyLine(Zero, line) == ApplySegments(Zero, segs);
  }

  /** A summary line with any count tokens: added and changed are read, destroyed is not. */
  lemma SummaryTextRead(a: string, c: string, d: string)
    requires IsToken(a) && IsToken(c) && IsToken(d)
    ensures LogStats(Some(SummaryText(a, c, d))) == Counts(Atoi(a), Atoi(c), 0, 0)
  {
    SummaryTextIsOneMarkerLine(a, c, d);
    SummaryTextSplits(a, c, d);
    SummaryClauseSplits(a, c, d);
    SummarySegmentsRead(a, c, d);
    OneSummaryLine(SummaryText(a, c, d), Join(SummarySegments(a, c, d), ','), SummarySegments(a, c, d));
  }

  lemma NumeralIsToken(n: nat)
    ensures IsToken(Decimal(n))
  {
    var s := Decimal(n);
    assert forall k :: 0 <= k < |s| ==> IsDigit(s[k]);
  }

  /**
   * Reading back the summary line: the added and changed counts are
   * recovered, but the destroyed count is never stored, because its keyword
   * token is "destroyed." (with the sentence's period), which is none of the
   * switch's cases.
   */
  lemma SummaryLineDropsDestroyed(a: nat, c: nat, d: nat)
    requires a <= MaxInt64 && c <= MaxInt64
    ensures LogStats(Some(SummaryLine(a, c, d))) == Counts(a, c, 0, 0)
  {
    NumeralIsToken(a);
    NumeralIsToken(c);
    NumeralIsToken(d);
    SummaryTextRead(Decimal(a), Decimal(c), Decimal(d));
    AtoiDecimal(a);
    AtoiDecimal(c);
  }

  lemma KeywordHasNoSpace(k: string)
    requires IsKeyword(k)
    ensures k != [] && NoSpace(k)
  {
  }

  /**
   * A count token that is not a number ("5x", "1.5", "-", "abc") still
   * overwrites its bucket, with 0, because the Atoi error is discarded.
   */
  lemma NonNumericCountStoresZero(c: Counts, sign: string, digits: string, rest: string, k: string)
    requires IsKeyword(k)
    requires SyntaxError(sign, digits, rest) && NoSpace(rest)
    ensures Bucket(ApplySegment(c, Spaced([sign + digits + rest, k])), k) == 0
  {
    var w := sign + digits + rest;
    assert NoSpace(w) by {
      forall i | 0 <= i < |w|
        ensures !IsSpace(w[i])
      {
        if i < |sign| {
          assert w[i] == sign[i];
        } else if i < |sign| + |digits| {
          assert w[i] == digits[i - |sign|];
        } else {
          assert w[i] == rest[i - |sign| - |digits|];
        }
      }
    }
    KeywordHasNoSpace(k);
    SegmentOfWords(c, w, k);
    AtoiSyntaxError(sign, digits, rest);
  }
}
