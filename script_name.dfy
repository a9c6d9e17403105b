/**
  The name under which the page offers a level's script for download
  (App01.py, line 104): the level lower-cased, spaces turned into
  underscores, between "podcast_script_" and ".txt".

  It is a module of its own, apart from `App`, because it depends on
  nothing of the session model: it is a pure string function of the level
  name, and keeping it out of `App` keeps that module's proofs free of its
  character-level lemmas.
*/
module ScriptName {

  function LowerAscii(c: char): char
  {
    if 'A' <= c <= 'Z' then (c as int + 32) as char else c
  }

  /** `str.lower()`, for ASCII letters. */
  function Lower(s: string): string
  {
    seq(|s|, i requires 0 <= i < |s| => LowerAscii(s[i]))
  }

  function SpaceToUnderscore(c: char): char
  {
    if c == ' ' then '_' else c
  }

  /** `str.replace(' ', '_')`. */
  function SpacesToUnderscores(s: string): string
  {
    seq(|s|, i requires 0 <= i < |s| => SpaceToUnderscore(s[i]))
  }

  /** `level.lower().replace(' ', '_')`. */
  function Slug(level: string): string
  {
    SpacesToUnderscores(Lower(level))
  }

  /**
    `f"podcast_script_{level.lower().replace(' ', '_')}.txt"`: the prefix,
    then the level character by character, lower-cased with every space
    turned into an underscore, then ".txt"; the level part holds no space
    and no upper-case ASCII letter.
  */
  function ScriptFileName(level: string): (n: string)
    ensures && |n| == 15 + |level| + 4
            && n[..15] == "podcast_script_"
            && n[15 + |level|..] == ".txt"
            && forall i | 0 <= i < |level| ::
                 && n[15 + i] == (if level[i] == ' ' then '_' else LowerAscii(level[i]))
                 && n[15 + i] != ' '
                 && !('A' <= n[15 + i] <= 'Z')
  {
    var slug := Slug(level);
    var n := "podcast_script_" + slug + ".txt";
    assert forall i | 0 <= i < |level| :: n[15 + i] == slug[i];
    n
  }

  /** The names of the three generated levels, e.g. "Deep Dive" gives podcast_script_deep_dive.txt. */
  lemma ScriptFileNamesOfLevels()
    ensures ScriptFileName("Summarize") == "podcast_script_summarize.txt"
    ensures ScriptFileName("Brief") == "podcast_script_brief.txt"
    ensures ScriptFileName("Deep Dive") == "podcast_script_deep_dive.txt"
  {
    SummarizeScriptName();
    BriefScriptName();
    DeepDiveScriptName();
  }

  lemma SummarizeScriptName()
    ensures ScriptFileName("Summarize") == "podcast_script_summarize.txt"
  {
    assert Slug("Summarize") == "summarize";
    assert ScriptFileName("Summarize") == "podcast_script_" + "summarize" + ".txt";
  }

  lemma BriefScriptName()
    ensures ScriptFileName("Brief") == "podcast_script_brief.txt"
  {
    assert Slug("Brief") == "brief";
    assert ScriptFileName("Brief") == "podcast_script_" + "brief" + ".txt";
  }

  lemma DeepDiveScriptName()
    ensures ScriptFileName("Deep Dive") == "podcast_script_deep_dive.txt"
  {
    assert Slug("Deep Dive") == "deep_dive";
    assert ScriptFileName("Deep Dive") == "podcast_script_" + "deep_dive" + ".txt";
  }
}
