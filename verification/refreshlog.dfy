/**
 * detectDrift: whether the refresh log of a run reports drift. Terraform's
 * confirmation that nothing changed wins over any sign of a refresh; a log
 * that refreshed state without that confirmation counts as drift.
 */
module RefreshLog {
  import opened Wrappers
  import opened GoStrings
  import opened Transcripts

  /**
   * Terraform's confirmation that the infrastructure matches the
   * configuration, "No changes. Your infrastructure still matches the
   * configuration.", written in pieces so that facts about each short
   * piece (such as having no newline) combine into facts about the whole.
   */
  const NoChanges := "No changes. " + "Your infrastructure " + "still matches " + "the configuration."
  const Refreshing := "Refreshing state..."

  /** detectDrift(logPath): 1 for drift, 0 otherwise; a log that cannot be read reports none. */
  function DetectDrift(fs: FileSystem, logPath: string): (d: int)
    ensures d == 0 || d == 1
    ensures d == 1 <==>
      (logPath != "" && logPath in fs && !Contains(fs[logPath], NoChanges) && Contains(fs[logPath], Refreshing))
  {
    match Read(fs, logPath)
    case None => 0
    case Some(text) =>
      if Contains(text, NoChanges) then 0
      else if Contains(text, Refreshing) then 1
      else 0
  }

  /** The "no changes" confirmation anywhere in the log means no drift, even after a refresh. */
  lemma ConfirmationOverridesRefresh(fs: FileSystem, logPath: string, before: string, after: string)
    requires Read(fs, logPath) == Some(before + NoChanges + after)
    ensures DetectDrift(fs, logPath) == 0
  {
    ContainsInfix(before, NoChanges, after);
  }

  /** A refresh without the confirmation is reported as drift. */
  lemma RefreshWithoutConfirmationIsDrift(fs: FileSystem, logPath: string, before: string, after: string)
    requires Read(fs, logPath) == Some(before + Refreshing + after)
    requires !Contains(before + Refreshing + after, NoChanges)
    ensures DetectDrift(fs, logPath) == 1
  {
    ContainsInfix(before, Refreshing, after);
  }

  /** Neither message spans a line break or ends on a carriage return. */
  lemma MarkersAreLineLocal()
    ensures NoChanges != [] && '\n' !in NoChanges && NoChanges[|NoChanges| - 1] != '\r'
    ensures Refreshing != [] && '\n' !in Refreshing && Refreshing[|Refreshing| - 1] != '\r'
  {
    assert '\n' !in "No changes. ";
    assert '\n' !in "Your infrastructure ";
    assert '\n' !in "still matches ";
    assert '\n' !in "the configuration.";
  }

  /**
   * Drift is a property of the log's lines: it is reported exactly when some
   * line shows a refresh and no line holds the confirmation.
   */
  lemma DriftByLines(fs: FileSystem, logPath: string, text: string)
    requires Read(fs, logPath) == Some(text)
    ensures DetectDrift(fs, logPath) == 1 <==>
      ((exists k :: 0 <= k < |Lines(text)| && Contains(Lines(text)[k], Refreshing)) &&
       !(exists k :: 0 <= k < |Lines(text)| && Contains(Lines(text)[k], NoChanges)))
  {
    MarkersAreLineLocal();
    LinesContain(text, Refreshing);
    LinesContain(text, NoChanges);
  }
}
