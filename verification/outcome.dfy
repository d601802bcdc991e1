/**
 * isTerraformRunSuccessful: a run failed when its log cannot be opened or
 * when some line of it carries one of terraform's error markers, the plain
 * "Error:" or the boxed diagnostic "│ Error".
 */
module Outcome {
  import opened Wrappers
  import opened GoStrings
  import opened Transcripts

  const ErrorMarker := "Error:"
  const BoxErrorMarker := "\U{2502} Error"

  /** A line carrying either error marker; both mention "Error". */
  predicate IsErrorLine(line: string)
    ensures IsErrorLine(line) ==> Contains(line, "Error")
  {
    ContainsInfix([], "Error", ":");
    assert [] + "Error" + ":" == ErrorMarker;
    ContainsInfix("\U{2502} ", "Error", []);
    assert "\U{2502} " + "Error" + [] == BoxErrorMarker;
    ContainsTransitive(line, ErrorMarker, "Error");
    ContainsTransitive(line, BoxErrorMarker, "Error");
    Contains(line, ErrorMarker) || Contains(line, BoxErrorMarker)
  }

  /** No line of the text carries an error marker. */
  predicate NoErrorLine(text: string)
  {
    forall k :: 0 <= k < |Lines(text)| ==> !IsErrorLine(Lines(text)[k])
  }

  /** The scan of the log: the first error line ends it with failure. */
  method IsTerraformRunSuccessful(fs: FileSystem, logPath: string) returns (ok: bool)
    ensures ok <==> Read(fs, logPath).Some? && NoErrorLine(Read(fs, logPath).value)
    ensures logPath == "" ==> !ok
  {
    var content := Read(fs, logPath);
    if content.None? {
      return false;
    }
    var lines := Lines(content.value);
    for i := 0 to |lines|
      invariant forall k :: 0 <= k < i ==> !IsErrorLine(lines[k])
    {
      if Contains(lines[i], ErrorMarker) || Contains(lines[i], BoxErrorMarker) {
        return false;
      }
    }
    return true;
  }

  lemma MarkersAreLineLocal()
    ensures ErrorMarker != [] && '\n' !in ErrorMarker && ErrorMarker[|ErrorMarker| - 1] != '\r'
    ensures BoxErrorMarker != [] && '\n' !in BoxErrorMarker && BoxErrorMarker[|BoxErrorMarker| - 1] != '\r'
  {
  }

  /**
   * Scanning line by line finds exactly what a search of the whole text
   * finds: the log is clean when neither marker occurs anywhere in it.
   */
  lemma NoErrorLineIffNoMarker(text: string)
    ensures NoErrorLine(text) <==> !Contains(text, ErrorMarker) && !Contains(text, BoxErrorMarker)
  {
    MarkersAreLineLocal();
    LinesContain(text, ErrorMarker);
    LinesContain(text, BoxErrorMarker);
    var lines := Lines(text);
    if !NoErrorLine(text) {
      var k :| 0 <= k < |lines| && IsErrorLine(lines[k]);
      assert Contains(lines[k], ErrorMarker) || Contains(lines[k], BoxErrorMarker);
    }
  }

  /** An error marker anywhere in a readable log, even mid-line, makes the run a failure. */
  lemma ErrorAnywhereFails(text: string, before: string, after: string)
    requires text == before + ErrorMarker + after || text == before + BoxErrorMarker + after
    ensures !NoErrorLine(text)
  {
    NoErrorLineIffNoMarker(text);
    ContainsInfix(before, ErrorMarker, after);
    ContainsInfix(before, BoxErrorMarker, after);
  }
}
