/**
 * The process probe `checkProcess`: run `ps aux` and look for the process
 * name anywhere in its output. Running the command is outside the model;
 * its outcome is a parameter, `None` when the command could not be run.
 */
module Probe {
  import opened GoStrings
  import opened Config

  datatype Option<T> = None | Some(value: T)

  /**
   * A failed listing reports "not running"; otherwise the process counts as
   * running exactly when its name occurs as a contiguous substring of the
   * listing.
   */
  function CheckProcess(listing: Option<string>, name: string): (running: bool)
    ensures listing.None? ==> !running
    ensures listing.Some? ==> (running <==> exists i: nat :: OccursAt(listing.value, name, i))
  {
    match listing
    case None => false
    case Some(output) => Contains(output, name)
  }

  /**
   * The match is on the whole listing text, so a name that only appears
   * inside another process's command line still counts as running.
   */
  lemma MatchInsideOtherCommandLine(before: string, name: string, after: string)
    ensures CheckProcess(Some(before + name + after), name)
  {
    var text := before + name + after;
    assert text[|before|..|before| + |name|] == name;
    assert OccursAt(text, name, |before|);
  }

  /** An empty name would match every listing that could be produced, even an empty one. */
  lemma EmptyNameAlwaysRunning(output: string)
    ensures CheckProcess(Some(output), "")
  {
    assert OccursAt(output, "", 0);
  }

  /**
   * The configured names are never empty, so an empty listing never
   * reports either server as running.
   */
  lemma ConfiguredNamesNeedAMatch(env: Env)
    ensures !CheckProcess(Some(""), Load(env).processName)
    ensures !CheckProcess(Some(""), Load(env).realmName)
  {
  }
}
