/**
  The pure helpers of the podcast pipeline (utils01.py): trimming the combined
  summary to a detail level, wrapping a summary in the narration template,
  summarising the chunks one by one, and naming the audio file of a level.

  PDF extraction, the chunker (textwrap), the summarisation model and speech
  synthesis are external; the summariser and the synthesiser appear here as
  function-valued parameters.
*/
module Utils {
  import opened Wrappers
  import opened Paragraphs

  // ---------------------------------------------------------------------------
  // Detail levels and trimming
  // ---------------------------------------------------------------------------

  const Summarize: string := "Summarize"
  const Brief: string := "Brief"
  const DeepDive: string := "Deep Dive"

  /**
    `trim_summary`: "Summarize" keeps the first paragraph, "Brief" the first
    three (or everything when there are fewer than three), any other level
    the whole summary. Every level yields a prefix of the summary. The
    fallback of the "Summarize" branch is kept as the source writes it;
    `Split` never returns an empty list, so it is dead.
  */
  function TrimSummary(summary: string, level: string): (r: string)
    ensures IsPrefix(r, summary)
  {
    var paragraphs := Split(summary);
    if level == Summarize then
      SplitFirst(summary);
      (if |paragraphs| > 0 then paragraphs[0] else summary)
    else if level == Brief then
      (if |paragraphs| >= 3 then JoinPrefixOfSplit(summary, 3); Join(paragraphs[..3]) else summary)
    else
      summary
  }

  /** Any level other than "Summarize" and "Brief" (in practice "Deep Dive") keeps the whole summary. */
  lemma TrimOtherLevel(summary: string, level: string)
    requires level != Summarize && level != Brief
    ensures TrimSummary(summary, level) == summary
  {
  }

  /**
    "Summarize" yields the text before the leftmost blank line, or the whole
    summary when it has none; the result never holds a blank line.
  */
  lemma TrimSummarizeFirstParagraph(summary: string)
    ensures var r := TrimSummary(summary, Summarize);
      && r == Split(summary)[0]
      && IsPrefix(r, summary)
      && (forall i | 0 <= i < |r| :: !SepAt(summary, i))
      && (|r| == |summary| || SepAt(summary, |r|))
      && !HasSep(r)
      && (r == summary <==> !HasSep(summary))
  {
    var r := TrimSummary(summary, Summarize);
    SplitFirst(summary);
    FirstPieceNoSep(summary);
    SplitSingle(summary);
    JoinSplit(summary);
  }

  /**
    "Brief" returns the whole summary when it has fewer than three
    paragraphs; otherwise the first three paragraphs joined by blank lines,
    which is the prefix of the summary ending just before its third
    separator and which itself splits into exactly those three paragraphs.
  */
  lemma TrimBriefFirstThree(summary: string)
    ensures var ps := Split(summary);
      var r := TrimSummary(summary, Brief);
      && (|ps| < 3 ==> r == summary)
      && (|ps| >= 3 ==>
            && r == Join(ps[..3])
            && IsPrefix(r, summary)
            && Split(r) == ps[..3])
      && (|ps| == 3 ==> r == summary)
      && (|ps| > 3 ==> SepAt(summary, |r|))
  {
    var ps := Split(summary);
    if |ps| >= 3 {
      var r := Join(ps[..3]);
      JoinSplit(summary);
      if |ps| > 3 {
        JoinAppend(ps, 3);
        assert summary == r + Sep + Join(ps[3..]);
      } else {
        assert ps[..3] == ps;
      }
      SplitCanonical(summary);
      CanonicalPrefix(ps, 3);
      SplitJoin(ps[..3]);
    }
  }

  /** Trimming an already trimmed summary to the same level changes nothing. */
  lemma TrimIdempotent(summary: string, level: string)
    ensures TrimSummary(TrimSummary(summary, level), level) == TrimSummary(summary, level)
  {
    var r := TrimSummary(summary, level);
    if level == Summarize {
      TrimSummarizeFirstParagraph(summary);
      SplitNoSep(r);
    } else if level == Brief {
      TrimBriefFirstThree(summary);
      if |Split(summary)| >= 3 {
        assert Split(r)[..3] == Split(r);
      }
    }
  }

  /** The levels are nested: "Summarize" is a prefix of "Brief", which is a prefix of "Deep Dive". */
  lemma TrimLevelsNested(summary: string)
    ensures IsPrefix(TrimSummary(summary, Summarize), TrimSummary(summary, Brief))
    ensures IsPrefix(TrimSummary(summary, Brief), TrimSummary(summary, DeepDive))
  {
    TrimSummarizeFirstParagraph(summary);
    TrimBriefFirstThree(summary);
    var ps := Split(summary);
    if |ps| >= 3 {
      assert ps[..3][0] == ps[0];
      JoinAppend(ps[..3], 1);
      assert ps[..3][..1] == [ps[0]];
    }
  }

  // ---------------------------------------------------------------------------
  // Narration template
  // ---------------------------------------------------------------------------

  const DialogueIntro: string :=
    "\nHi everyone, welcome to this podcast.\nToday, we are discussing a fascinating research paper.\n\nLet me give you an overview of the content:\n"
  const DialogueOutro: string := "\n\nHope you find this episode insightful!\n"

  /**
    `generate_dialogue`: the summary between the fixed introduction and
    closing line; every script is the template around exactly one summary,
    which the inverse reads back.
  */
  function GenerateDialogue(summary: string): (r: string)
    ensures SummaryOfDialogue(r) == Some(summary)
  {
    var d := DialogueIntro + summary + DialogueOutro;
    assert d[..|DialogueIntro|] == DialogueIntro;
    assert d[|d| - |DialogueOutro|..] == DialogueOutro;
    assert d[|DialogueIntro|..|d| - |DialogueOutro|] == summary;
    d
  }

  /** Recovers the summary a narration script was made from, if it has the template's shape. */
  function SummaryOfDialogue(dialogue: string): Option<string>
  {
    if |dialogue| >= |DialogueIntro| + |DialogueOutro|
       && dialogue[..|DialogueIntro|] == DialogueIntro
       && dialogue[|dialogue| - |DialogueOutro|..] == DialogueOutro
    then Some(dialogue[|DialogueIntro|..|dialogue| - |DialogueOutro|])
    else None
  }

  /** A string the inverse accepts is the script of the summary it reads back. */
  lemma DialogueOfSummary(dialogue: string, summary: string)
    requires SummaryOfDialogue(dialogue) == Some(summary)
    ensures GenerateDialogue(summary) == dialogue
  {
    var n := |dialogue|;
    assert dialogue == dialogue[..|DialogueIntro|] + dialogue[|DialogueIntro|..n - |DialogueOutro|] + dialogue[n - |DialogueOutro|..];
  }

  /** Different summaries give different scripts. */
  lemma DialogueInjective(a: string, b: string)
    requires GenerateDialogue(a) == GenerateDialogue(b)
    ensures a == b
  {
    assert SummaryOfDialogue(GenerateDialogue(a)) == Some(a);
  }

  // ---------------------------------------------------------------------------
  // Per-chunk summarisation
  // ---------------------------------------------------------------------------

  /** Default width `split_text` hands to the chunker. */
  const MaxChunkLength: nat := 2000

  /**
    What `summarize_chunks` computes: one model output per chunk, in chunk
    order; `None` when the model raises on some chunk (the exception
    propagates out of the loop).
  */
  function SummarizeAll(chunks: seq<string>, summarize: string -> Option<string>): (r: Option<seq<string>>)
    ensures r.Some? <==> forall i | 0 <= i < |chunks| :: summarize(chunks[i]).Some?
    ensures r.Some? ==> |r.value| == |chunks|
    ensures r.Some? ==> forall i | 0 <= i < |chunks| :: r.value[i] == summarize(chunks[i]).value
  {
    if chunks == [] then Some([])
    else
      match summarize(chunks[0])
      case None => None
      case Some(first) =>
        match SummarizeAll(chunks[1..], summarize)
        case None => None
        case Some(rest) => Some([first] + rest)
  }

  /** `summarize_chunks`: the loop that appends one summary per chunk. */
  method SummarizeChunks(chunks: seq<string>, summarize: string -> Option<string>)
    returns (summaries: Option<seq<string>>)
    ensures summaries == SummarizeAll(chunks, summarize)
  {
    var acc: seq<string> := [];
    var i := 0;
    while i < |chunks|
      invariant 0 <= i <= |chunks|
      invariant |acc| == i
      invariant forall j | 0 <= j < i :: summarize(chunks[j]).Some? && acc[j] == summarize(chunks[j]).value
    {
      var out := summarize(chunks[i]);
      if out.None? {
        assert !summarize(chunks[i]).Some?;
        return None;
      }
      acc := acc + [out.value];
      i := i + 1;
    }
    ghost var all := SummarizeAll(chunks, summarize);
    assert all.Some? && all.value == acc;
    summaries := Some(acc);
  }

  // ---------------------------------------------------------------------------
  // Audio artefact naming
  // ---------------------------------------------------------------------------

  /** Default output folder of `generate_audio`. */
  const AudioDir: string := "audio"

  /** The shape of `uuid.uuid4().hex`: 32 lower-case hexadecimal digits. */
  predicate IsHexId(hex: string)
  {
    |hex| == 32 && forall i | 0 <= i < |hex| :: hex[i] in "0123456789abcdef"
  }

  /** `podcast_<level>_<hex>.mp3`: a single path component when the level holds no slash. */
  function AudioFileName(level: string, hex: string): (r: string)
    ensures IsHexId(hex) && '/' !in level ==> '/' !in r
  {
    var name := "podcast_" + level + "_" + hex + ".mp3";
    assert IsHexId(hex) && '/' !in level ==> '/' !in name by {
      if IsHexId(hex) && '/' !in level {
        forall i | 0 <= i < |name|
          ensures name[i] != '/'
        {
          if 8 + |level| < i < 9 + |level| + |hex| {
            assert name[i] == hex[i - 9 - |level|];
          } else if 8 <= i < 8 + |level| {
            assert name[i] == level[i - 8];
          }
        }
      }
    }
    name
  }

  /**
    `os.path.join(dir, name)` with POSIX rules for two components: the
    result ends with `name`, and starts with `dir` unless `name` is absolute.
  */
  function PathJoin(dir: string, name: string): (r: string)
    ensures |name| <= |r| && r[|r| - |name|..] == name
    ensures (name == "" || name[0] != '/') ==> IsPrefix(dir, r)
  {
    if |name| > 0 && name[0] == '/' then name
    else if dir == "" || dir[|dir| - 1] == '/' then dir + name
    else dir + "/" + name
  }

  /** `os.path.basename`: everything after the last slash, a slash-free suffix of the path. */
  function Basename(path: string): (r: string)
    ensures |r| <= |path| && r == path[|path| - |r|..]
    ensures '/' !in r
  {
    if path == "" || path[|path| - 1] == '/' then ""
    else
      var init := path[..|path| - 1];
      var b := Basename(init);
      assert init[|init| - |b|..] + [path[|path| - 1]] == path[|path| - |b| - 1..];
      b + [path[|path| - 1]]
  }

  /** The path `generate_audio` writes to: the level's file name inside `dir`. */
  function AudioPath(dir: string, level: string, hex: string): (r: string)
    ensures var name := AudioFileName(level, hex);
      |name| <= |r| && r[|r| - |name|..] == name && IsPrefix(dir, r)
  {
    var name := AudioFileName(level, hex);
    assert name[0] == 'p';
    PathJoin(dir, name)
  }

  /**
    `generate_audio`: synthesis of `text` into the level's file; `None` when
    the speech service raises.
  */
  function GenerateAudio(text: string, level: string, dir: string, hex: string,
                         synthesize: (string, string) -> bool): (r: Option<string>)
    ensures r.Some? <==> synthesize(text, AudioPath(dir, level, hex))
    ensures r.Some? ==> r.value == AudioPath(dir, level, hex)
  {
    var path := AudioPath(dir, level, hex);
    if synthesize(text, path) then Some(path) else None
  }

  lemma {:induction false} BasenameOfJoined(prefix: string, name: string)
    requires prefix == "" || prefix[|prefix| - 1] == '/'
    requires '/' !in name
    ensures Basename(prefix + name) == name
    decreases |name|
  {
    if name == "" {
      assert prefix + name == prefix;
    } else {
      var n := name[..|name| - 1];
      assert '/' !in n by {
        assert forall i | 0 <= i < |n| :: n[i] == name[i];
      }
      BasenameOfJoined(prefix, n);
      BasenameOfJoinedStep(prefix, name);
    }
  }

  /** One step of `BasenameOfJoined`: a further slash-free character extends the base name. */
  lemma BasenameOfJoinedStep(prefix: string, name: string)
    requires name != "" && '/' !in name
    requires Basename(prefix + name[..|name| - 1]) == name[..|name| - 1]
    ensures Basename(prefix + name) == name
  {
    var n := name[..|name| - 1];
    var path := prefix + name;
    var last := name[|name| - 1];
    assert last in name;
    assert path[..|path| - 1] == prefix + n && path[|path| - 1] == last;
    assert last != '/';
    BasenameLast(path);
    assert name == n + [last];
  }

  /** A path not ending in a slash has its last character as the last character of its base name. */
  lemma BasenameLast(path: string)
    requires path != "" && path[|path| - 1] != '/'
    ensures Basename(path) == Basename(path[..|path| - 1]) + [path[|path| - 1]]
  {
  }

  /** The file name shown for download is the generated name, whatever the folder. */
  lemma AudioPathBasename(dir: string, level: string, hex: string)
    requires '/' !in level
    requires IsHexId(hex)
    ensures Basename(AudioPath(dir, level, hex)) == AudioFileName(level, hex)
  {
    var name := AudioFileName(level, hex);
    assert name[0] == 'p' && '/' !in name;
    assert AudioPath(dir, level, hex) == PathJoin(dir, name);
    if dir == "" || dir[|dir| - 1] == '/' {
      assert PathJoin(dir, name) == dir + name;
      BasenameOfJoined(dir, name);
    } else {
      assert PathJoin(dir, name) == (dir + "/") + name;
      BasenameOfJoined(dir + "/", name);
    }
  }

  /** Two audio paths in one folder coincide only for the same level and the same id. */
  lemma AudioPathUnique(dir: string, level1: string, hex1: string, level2: string, hex2: string)
    requires IsHexId(hex1) && IsHexId(hex2)
    requires AudioPath(dir, level1, hex1) == AudioPath(dir, level2, hex2)
    ensures level1 == level2 && hex1 == hex2
  {
    AudioPathSameName(dir, level1, hex1, level2, hex2);
    AudioFileNameUnique(level1, hex1, level2, hex2);
  }

  /** Paths in one folder are equal only when their file names are. */
  lemma AudioPathSameName(dir: string, level1: string, hex1: string, level2: string, hex2: string)
    requires AudioPath(dir, level1, hex1) == AudioPath(dir, level2, hex2)
    ensures AudioFileName(level1, hex1) == AudioFileName(level2, hex2)
  {
    var n1 := AudioFileName(level1, hex1);
    var n2 := AudioFileName(level2, hex2);
    assert n1[0] == 'p' && n2[0] == 'p';
    var prefix := if dir == "" || dir[|dir| - 1] == '/' then dir else dir + "/";
    assert AudioPath(dir, level1, hex1) == prefix + n1;
    assert AudioPath(dir, level2, hex2) == prefix + n2;
    assert n1 == (prefix + n1)[|prefix|..];
    assert n2 == (prefix + n2)[|prefix|..];
  }

  /** A file name gives back its level and, for 32-digit ids, its id. */
  lemma AudioFileNameUnique(level1: string, hex1: string, level2: string, hex2: string)
    requires |hex1| == 32 && |hex2| == 32
    requires AudioFileName(level1, hex1) == AudioFileName(level2, hex2)
    ensures level1 == level2 && hex1 == hex2
  {
    var n1 := AudioFileName(level1, hex1);
    var n2 := AudioFileName(level2, hex2);
    assert |level1| == |level2|;
    assert level1 == n1[8..8 + |level1|];
    assert level2 == n2[8..8 + |level2|];
    assert hex1 == n1[9 + |level1|..9 + |level1| + 32];
    assert hex2 == n2[9 + |level2|..9 + |level2| + 32];
  }
}
