/**
  The page (App01.py): the session cache `st.session_state`, what an upload
  does to it, the progress message chosen from the length of the extracted
  text, the cached lookup of a level, and the name of a downloaded script.

  Extraction, chunking, summarisation, speech synthesis and the random audio
  id are external; a `Services` value carries them as functions so that a
  run is a deterministic function of the session state, the upload and the
  services.
*/
module App {
  import opened Wrappers
  import opened Paragraphs
  import opened Utils

  // ---------------------------------------------------------------------------
  // Session state
  // ---------------------------------------------------------------------------

  /** A cached value: a string, or the list of chunks. */
  datatype Value = Text(text: string) | TextList(items: seq<string>)

  type State = map<string, Value>

  const LastFilenameKey: string := "last_filename"
  const FullTextKey: string := "full_text"
  const SummaryKey: string := "summary"
  const ChunksKey: string := "chunks"

  function DialogueKey(level: string): string
  {
    "dialogue_" + level
  }

  function AudioKey(level: string): string
  {
    "audio_" + level
  }

  /** The three levels the page generates, in the order it generates them. */
  const Levels: seq<string> := [Summarize, Brief, DeepDive]

  datatype UploadedFile = UploadedFile(name: string, content: seq<bv8>)

  /**
    The external collaborators of one run: PDF extraction (its failures are
    already folded into the returned text), the chunker called with a width,
    the summarisation model (`None`: it raised), speech synthesis of a text
    into a path (`false`: it raised) and the hex id drawn for a level's file.
  */
  datatype Services = Services(
    extract: seq<bv8> -> string,
    splitText: (string, nat) -> seq<string>,
    summarize: string -> Option<string>,
    synthesize: (string, string) -> bool,
    audioHex: string -> string)

  /** How an execution of the upload block ended. */
  datatype RunResult =
    | NoFile
    | AlreadyLoaded
    | Completed(progress: Progress)
    | SummarizerRaised(progress: Progress)
    | SynthesisRaised(progress: Progress, level: string)

  /** `st.session_state.get(key, default)`. */
  function GetOr(m: State, key: string, default: Value): (r: Value)
    ensures key in m ==> r == m[key]
    ensures key !in m ==> r == default
  {
    if key in m then m[key] else default
  }

  /** The uploaded name is the one the cache was last filled for. */
  predicate SameFile(m: State, name: string)
  {
    LastFilenameKey in m && m[LastFilenameKey] == Text(name)
  }

  // ---------------------------------------------------------------------------
  // Progress message
  // ---------------------------------------------------------------------------

  datatype Progress = QuickRead | AboutAMinute | AboutThreeMinutes | AboutFiveMinutes

  /** The `if`/`elif` chain on `len(full_text)`. */
  function ProgressFor(totalChars: nat): (p: Progress)
    ensures p == QuickRead <==> totalChars < 5000
    ensures p == AboutAMinute <==> 5000 <= totalChars < 10000
    ensures p == AboutThreeMinutes <==> 10000 <= totalChars < 20000
    ensures p == AboutFiveMinutes <==> 20000 <= totalChars
  {
    if totalChars < 5000 then QuickRead
    else if totalChars < 10000 then AboutAMinute
    else if totalChars < 20000 then AboutThreeMinutes
    else AboutFiveMinutes
  }

  /** The emoji each message starts with. */
  function ProgressIcon(p: Progress): char
  {
    match p
    case QuickRead => '\U{1F680}'
    case AboutAMinute => '\U{23F1}'
    case AboutThreeMinutes => '\U{1F9E0}'
    case AboutFiveMinutes => '\U{1F4DA}'
  }

  /** The band a message announces, read from its leading emoji. */
  function BandOfMessage(msg: string): Option<Progress>
  {
    if msg == [] then None
    else if msg[0] == '\U{1F680}' then Some(QuickRead)
    else if msg[0] == '\U{23F1}' then Some(AboutAMinute)
    else if msg[0] == '\U{1F9E0}' then Some(AboutThreeMinutes)
    else if msg[0] == '\U{1F4DA}' then Some(AboutFiveMinutes)
    else None
  }

  /**
    The text shown with `st.info`: the emoji, then the rest of the message.
    The band can be read back from the message.
  */
  function ProgressMessage(p: Progress): (r: string)
    ensures BandOfMessage(r) == Some(p)
  {
    var msg := [ProgressIcon(p)] + ProgressRest(p);
    assert msg[0] == ProgressIcon(p);
    msg
  }

  function ProgressRest(p: Progress): string
  {
    match p
    case QuickRead => " Quick read! Your podcast will be ready in under 30 seconds."
    case AboutAMinute => "\U{FE0F} Hang tight! Cooking up your podcast \U{2014} about a minute to go."
    case AboutThreeMinutes => " Big brain alert! This one will take ~3 minutes. Stay tuned."
    case AboutFiveMinutes => " Long paper detected! Give us ~5 mins to podcastify your research."
  }

  function ProgressRank(p: Progress): nat
  {
    match p
    case QuickRead => 0
    case AboutAMinute => 1
    case AboutThreeMinutes => 2
    case AboutFiveMinutes => 3
  }

  /** A longer text never gets a shorter estimate. */
  lemma ProgressMonotone(a: nat, b: nat)
    requires a <= b
    ensures ProgressRank(ProgressFor(a)) <= ProgressRank(ProgressFor(b))
  {
  }

  /** The four messages are different, so the message tells the band. */
  lemma ProgressMessagesDistinct(p: Progress, q: Progress)
    requires p != q
    ensures ProgressMessage(p) != ProgressMessage(q)
  {
    assert BandOfMessage(ProgressMessage(p)) != BandOfMessage(ProgressMessage(q));
  }

  // ---------------------------------------------------------------------------
  // One upload, as a function of the state before it
  // ---------------------------------------------------------------------------

  /** The trimmed narration script of one level. */
  function Dialogue(combined: string, level: string): string
  {
    GenerateDialogue(TrimSummary(combined, level))
  }

  /** The path `generate_audio` returns for one level. */
  function AudioPathFor(level: string, s: Services): string
  {
    AudioPath(AudioDir, level, s.audioHex(level))
  }

  /**
    One pass of the body of the level loop: the level, its narration script,
    and the path of its audio file, or `None` when synthesis raises.
  */
  datatype LevelRun = LevelRun(level: string, dialogue: string, audio: Option<string>)

  /** Lines 56-59 for one level. */
  function RunLevel(combined: string, level: string, s: Services): LevelRun
  {
    var dialogue := Dialogue(combined, level);
    LevelRun(level, dialogue, GenerateAudio(dialogue, level, AudioDir, s.audioHex(level), s.synthesize))
  }

  /** The loop body for each of `levels`, in order. */
  function Runs(combined: string, levels: seq<string>, s: Services): (r: seq<LevelRun>)
    ensures |r| == |levels|
    decreases |levels|
  {
    if levels == [] then []
    else [RunLevel(combined, levels[0], s)] + Runs(combined, levels[1..], s)
  }

  /** The state after the deletion loop: only `last_filename` survives. */
  function Cleared(m: State): (r: State)
    ensures LastFilenameKey in m ==> r == map[LastFilenameKey := m[LastFilenameKey]]
    ensures LastFilenameKey !in m ==> r == map[]
  {
    map k | k in m && k == LastFilenameKey :: m[k]
  }

  /**
    The loop over the levels, from `m`: store the level's dialogue, then its
    audio path if synthesis succeeds; the first synthesis that raises ends
    the loop and is reported.
  */
  function StoreLevels(m: State, runs: seq<LevelRun>): (r: (State, Option<string>))
    ensures r.1.Some? ==> exists run | run in runs :: run.level == r.1.value && run.audio.None?
    decreases |runs|
  {
    if runs == [] then (m, None)
    else
      var run := runs[0];
      var m1 := m[DialogueKey(run.level) := Text(run.dialogue)];
      match run.audio
      case None => (m1, Some(run.level))
      case Some(path) => StoreLevels(m1[AudioKey(run.level) := Text(path)], runs[1..])
  }

  /** Lines 29-61 for a file whose name differs from the cached one. */
  function Process(m: State, file: UploadedFile, s: Services): (r: (State, RunResult))
    ensures r.1.Completed? || r.1.SummarizerRaised? || r.1.SynthesisRaised?
    ensures r.1.progress == ProgressFor(|s.extract(file.content)|)
    ensures r.1.SynthesisRaised? ==> r.1.level in Levels
    ensures r.1.Completed? ==> SameFile(r.0, file.name)
  {
    var m0 := Cleared(m);
    var fullText := s.extract(file.content);
    var progress := ProgressFor(|fullText|);
    var chunks := s.splitText(fullText, MaxChunkLength);
    match SummarizeAll(chunks, s.summarize)
    case None => (m0, SummarizerRaised(progress))
    case Some(summaries) =>
      var combined := Join(summaries);
      var m1 := m0[FullTextKey := Text(fullText)][SummaryKey := Text(combined)][ChunksKey := TextList(chunks)];
      var (m2, failed) := StoreLevels(m1, Runs(combined, Levels, s));
      RunsLevels(combined, Levels, s);
      if failed.Some? then (m2, SynthesisRaised(progress, failed.value))
      else (m2[LastFilenameKey := Text(file.name)], Completed(progress))
  }

  /** Lines 26-61: the state and outcome of one execution of the upload block. */
  function AfterUpload(m: State, file: Option<UploadedFile>, s: Services): (r: (State, RunResult))
    ensures (r.1 == NoFile || r.1 == AlreadyLoaded) <==> (file.None? || SameFile(m, file.value.name))
    ensures (r.1 == NoFile || r.1 == AlreadyLoaded) ==> r.0 == m
    ensures r.1.Completed? ==> file.Some? && SameFile(r.0, file.value.name)
  {
    if file.None? then (m, NoFile)
    else if SameFile(m, file.value.name) then (m, AlreadyLoaded)
    else Process(m, file.value, s)
  }

  // ---------------------------------------------------------------------------
  // The runs of the level loop
  // ---------------------------------------------------------------------------

  /** The loop body runs once per level, in order. */
  lemma RunsOfLevels(combined: string, levels: seq<string>, s: Services)
    ensures |Runs(combined, levels, s)| == |levels|
    ensures forall i | 0 <= i < |levels| :: Runs(combined, levels, s)[i] == RunLevel(combined, levels[i], s)
  {
    forall i | 0 <= i < |levels|
      ensures Runs(combined, levels, s)[i] == RunLevel(combined, levels[i], s)
    {
      RunAt(combined, levels, s, i);
    }
  }

  /** The run at position `i` is the loop body for the i-th level. */
  lemma {:induction false} RunAt(combined: string, levels: seq<string>, s: Services, i: nat)
    requires i < |levels|
    ensures Runs(combined, levels, s)[i] == RunLevel(combined, levels[i], s)
    decreases i
  {
    if i > 0 {
      RunAt(combined, levels[1..], s, i - 1);
      assert levels[1..][i - 1] == levels[i];
    }
  }

  /** The i-th run is for the i-th level, so every run is for one of the levels. */
  lemma RunsLevels(combined: string, levels: seq<string>, s: Services)
    ensures |Runs(combined, levels, s)| == |levels|
    ensures forall i | 0 <= i < |levels| :: Runs(combined, levels, s)[i].level == levels[i]
    ensures forall run | run in Runs(combined, levels, s) :: run.level in levels
  {
    RunsOfLevels(combined, levels, s);
    RunLevelsIn(Runs(combined, levels, s), levels);
  }

  /** Runs that are for `levels`, position by position, are all for one of `levels`. */
  lemma RunLevelsIn(runs: seq<LevelRun>, levels: seq<string>)
    requires |runs| == |levels|
    requires forall i | 0 <= i < |levels| :: runs[i].level == levels[i]
    ensures forall run | run in runs :: run.level in levels
  {
    forall run | run in runs
      ensures run.level in levels
    {
      var i :| 0 <= i < |runs| && runs[i] == run;
      assert levels[i] == run.level;
    }
  }

  /** The loop body of a run, read back for one level. */
  lemma RunLevelOf(combined: string, level: string, s: Services)
    ensures var run := RunLevel(combined, level, s);
      && run.level == level
      && run.dialogue == Dialogue(combined, level)
      && (run.audio.Some? <==> s.synthesize(Dialogue(combined, level), AudioPathFor(level, s)))
      && (run.audio.Some? ==> run.audio.value == AudioPathFor(level, s))
  {
  }

  /** No two runs are for the same level. */
  ghost predicate DistinctLevels(runs: seq<LevelRun>)
  {
    forall i, j | 0 <= i < j < |runs| :: runs[i].level != runs[j].level
  }

  /** Runs for pairwise different levels are for pairwise different levels. */
  lemma DistinctRunsOfDistinctLevels(runs: seq<LevelRun>, levels: seq<string>)
    requires |runs| == |levels|
    requires forall i | 0 <= i < |levels| :: runs[i].level == levels[i]
    requires forall i, j | 0 <= i < j < |levels| :: levels[i] != levels[j]
    ensures DistinctLevels(runs)
  {
  }

  /** The three levels are different, so their runs are too. */
  lemma LevelRunsDistinct(combined: string, s: Services)
    ensures DistinctLevels(Runs(combined, Levels, s))
  {
    RunsLevels(combined, Levels, s);
    assert Summarize[0] == 'S' && Brief[0] == 'B' && DeepDive[0] == 'D';
    DistinctRunsOfDistinctLevels(Runs(combined, Levels, s), Levels);
  }

  // ---------------------------------------------------------------------------
  // What a run writes
  // ---------------------------------------------------------------------------

  /**
    The entries the level loop writes for `runs` when none of them raises:
    each level's dialogue and audio path, a later run overriding an earlier
    one.
  */
  function LevelOutputs(runs: seq<LevelRun>): State
    decreases |runs|
  {
    if runs == [] then map[]
    else
      var run := runs[0];
      var dialogue := map[DialogueKey(run.level) := Text(run.dialogue)];
      (if run.audio.Some? then dialogue[AudioKey(run.level) := Text(run.audio.value)] else dialogue)
      + LevelOutputs(runs[1..])
  }

  /** The combined summary of a run, when every chunk was summarised. */
  function CombinedSummary(file: UploadedFile, s: Services): Option<string>
  {
    var chunks := s.splitText(s.extract(file.content), MaxChunkLength);
    match SummarizeAll(chunks, s.summarize)
    case None => None
    case Some(summaries) => Some(Join(summaries))
  }

  /**
    Everything a run on `file` can write besides `last_filename`: nothing if
    summarisation raises, otherwise the text, the combined summary, the
    chunks, and the dialogue and audio path of each level.
  */
  function RunOutputs(file: UploadedFile, s: Services): State
  {
    var fullText := s.extract(file.content);
    var chunks := s.splitText(fullText, MaxChunkLength);
    match CombinedSummary(file, s)
    case None => map[]
    case Some(combined) =>
      map[FullTextKey := Text(fullText), SummaryKey := Text(combined), ChunksKey := TextList(chunks)]
      + LevelOutputs(Runs(combined, Levels, s))
  }

  /** Every entry of `r` is either the entry of `old` or the entry of `written`. */
  ghost predicate DrawnFrom(r: State, prior: State, written: State)
  {
    forall k | k in r :: (k in prior && r[k] == prior[k]) || (k in written && r[k] == written[k])
  }

  /** Synthesis succeeds in every one of `runs`. */
  ghost predicate AllSynthesized(runs: seq<LevelRun>)
  {
    forall i | 0 <= i < |runs| :: runs[i].audio.Some?
  }

  /** Keys of different kinds never collide: their first characters differ. */
  lemma KeysDistinct(a: string, b: string)
    ensures DialogueKey(a) != AudioKey(b)
    ensures DialogueKey(a) == DialogueKey(b) ==> a == b
    ensures AudioKey(a) == AudioKey(b) ==> a == b
    ensures DialogueKey(a) !in {LastFilenameKey, FullTextKey, SummaryKey, ChunksKey}
    ensures AudioKey(a) !in {LastFilenameKey, FullTextKey, SummaryKey, ChunksKey}
  {
    assert DialogueKey(a)[0] == 'd' && AudioKey(a)[0] == 'a' && AudioKey(b)[0] == 'a';
    assert LastFilenameKey[0] == 'l' && FullTextKey[0] == 'f' && SummaryKey[0] == 's' && ChunksKey[0] == 'c';
    assert DialogueKey(a)[9..] == a && DialogueKey(b)[9..] == b;
    assert AudioKey(a)[6..] == a && AudioKey(b)[6..] == b;
  }

  /** The loop's entries for a level it ran: that run's dialogue and audio path. */
  lemma {:induction false} LevelOutputsAt(runs: seq<LevelRun>, i: nat)
    requires i < |runs| && DistinctLevels(runs)
    requires runs[i].audio.Some?
    ensures var lo := LevelOutputs(runs);
      var run := runs[i];
      && DialogueKey(run.level) in lo && lo[DialogueKey(run.level)] == Text(run.dialogue)
      && AudioKey(run.level) in lo && lo[AudioKey(run.level)] == Text(run.audio.value)
    decreases |runs|
  {
    var run := runs[i];
    KeysDistinct(run.level, run.level);
    if i > 0 {
      assert runs[1..][i - 1] == run;
      LevelOutputsAt(runs[1..], i - 1);
    } else {
      forall j | 0 <= j < |runs[1..]|
        ensures runs[1..][j].level != run.level
      {
        assert runs[1..][j] == runs[j + 1];
      }
      LevelKeysOnlyOf(runs[1..], run.level);
    }
  }

  /** The loop's dialogue and audio keys belong to the levels it ran. */
  lemma {:induction false} LevelKeysOnlyOf(runs: seq<LevelRun>, level: string)
    requires forall j | 0 <= j < |runs| :: runs[j].level != level
    ensures DialogueKey(level) !in LevelOutputs(runs)
    ensures AudioKey(level) !in LevelOutputs(runs)
    decreases |runs|
  {
    if runs != [] {
      assert forall j | 0 <= j < |runs[1..]| :: runs[1..][j] == runs[j + 1];
      LevelKeysOnlyOf(runs[1..], level);
      KeysDistinct(level, runs[0].level);
      KeysDistinct(runs[0].level, level);
    }
  }

  /** The loop never writes `last_filename`, `full_text`, `summary` or `chunks`. */
  lemma {:induction false} FixedKeysNotWritten(runs: seq<LevelRun>)
    ensures var lo := LevelOutputs(runs);
      LastFilenameKey !in lo && FullTextKey !in lo && SummaryKey !in lo && ChunksKey !in lo
    decreases |runs|
  {
    if runs != [] {
      FixedKeysNotWritten(runs[1..]);
      KeysDistinct(runs[0].level, runs[0].level);
    }
  }

  /** The level loop writes only the loop's entries over the state it starts from. */
  lemma {:induction false} StoreLevelsDrawnFrom(m: State, runs: seq<LevelRun>)
    requires DistinctLevels(runs)
    ensures DrawnFrom(StoreLevels(m, runs).0, m, LevelOutputs(runs))
    decreases |runs|
  {
    if runs != [] {
      var run := runs[0];
      var d := Text(run.dialogue);
      var lo := LevelOutputs(runs);
      var rest := LevelOutputs(runs[1..]);
      var r := StoreLevels(m, runs).0;
      assert DistinctLevels(runs[1..]) by {
        assert forall j | 0 <= j < |runs[1..]| :: runs[1..][j] == runs[j + 1];
      }
      if run.audio.Some? {
        var a := Text(run.audio.value);
        var m2 := m[DialogueKey(run.level) := d][AudioKey(run.level) := a];
        LevelOutputsAt(runs, 0);
        StoreLevelsDrawnFrom(m2, runs[1..]);
        assert r == StoreLevels(m2, runs[1..]).0;
        forall k | k in r
          ensures (k in m && r[k] == m[k]) || (k in lo && r[k] == lo[k])
        {
          if k in rest && r[k] == rest[k] {
            assert lo[k] == rest[k];
          }
        }
      } else {
        assert r == m[DialogueKey(run.level) := d];
        forall j | 0 <= j < |runs[1..]|
          ensures runs[1..][j].level != run.level
        {
          assert runs[1..][j] == runs[j + 1];
        }
        LevelKeysOnlyOf(runs[1..], run.level);
        assert lo[DialogueKey(run.level)] == d;
      }
    }
  }

  lemma MapUpdatesThenUnion(m: State, k1: string, v1: Value, k2: string, v2: Value, rest: State)
    ensures m[k1 := v1][k2 := v2] + rest == m + (map[k1 := v1][k2 := v2] + rest)
  {
    var lhs := m[k1 := v1][k2 := v2] + rest;
    var rhs := m + (map[k1 := v1][k2 := v2] + rest);
    assert lhs.Keys == rhs.Keys;
    forall k | k in lhs
      ensures lhs[k] == rhs[k]
    {
    }
  }

  /** When every synthesis succeeds the level loop adds exactly the loop's entries. */
  lemma {:induction false} StoreLevelsComplete(m: State, runs: seq<LevelRun>)
    ensures StoreLevels(m, runs).1.None? <==> AllSynthesized(runs)
    ensures AllSynthesized(runs) ==> StoreLevels(m, runs).0 == m + LevelOutputs(runs)
    decreases |runs|
  {
    if runs != [] {
      var run := runs[0];
      AllSynthesizedCons(runs);
      if run.audio.Some? {
        var d := Text(run.dialogue);
        var a := Text(run.audio.value);
        var m2 := m[DialogueKey(run.level) := d][AudioKey(run.level) := a];
        StoreLevelsComplete(m2, runs[1..]);
        MapUpdatesThenUnion(m, DialogueKey(run.level), d, AudioKey(run.level), a, LevelOutputs(runs[1..]));
      }
    }
  }

  lemma AllSynthesizedCons(runs: seq<LevelRun>)
    requires |runs| >= 1
    ensures AllSynthesized(runs) <==> runs[0].audio.Some? && AllSynthesized(runs[1..])
  {
    assert forall i | 1 <= i < |runs| :: runs[i] == runs[1..][i - 1];
  }

  /** The index of the first run whose synthesis raised, or `|runs|` when none did. */
  function FirstFailure(runs: seq<LevelRun>): (i: nat)
    ensures i <= |runs|
    ensures forall k | 0 <= k < i :: runs[k].audio.Some?
    ensures i < |runs| ==> runs[i].audio.None?
    decreases |runs|
  {
    if runs == [] then 0
    else if runs[0].audio.None? then 0
    else
      var j := FirstFailure(runs[1..]);
      assert forall k | 1 <= k < j + 1 :: runs[k] == runs[1..][k - 1];
      j + 1
  }

  lemma LevelOutputsPrefix(runs: seq<LevelRun>, i: nat)
    requires 1 <= i <= |runs|
    requires runs[0].audio.Some?
    ensures LevelOutputs(runs[..i])
      == map[DialogueKey(runs[0].level) := Text(runs[0].dialogue)][AudioKey(runs[0].level) := Text(runs[0].audio.value)]
         + LevelOutputs(runs[1..][..i - 1])
  {
    assert runs[..i][1..] == runs[1..][..i - 1];
  }

  /**
    When a synthesis raises, the loop stopped at the first level whose
    synthesis failed: the state is the starting state plus the entries of
    the levels before it plus that level's dialogue (its audio path is never
    written), and that level is reported.
  */
  lemma {:induction false} StoreLevelsStopsAt(m: State, runs: seq<LevelRun>)
    ensures var i := FirstFailure(runs);
      i < |runs| ==>
        StoreLevels(m, runs) ==
          ((m + LevelOutputs(runs[..i]))[DialogueKey(runs[i].level) := Text(runs[i].dialogue)], Some(runs[i].level))
    decreases |runs|
  {
    var i := FirstFailure(runs);
    if i < |runs| {
      var run := runs[0];
      if i == 0 {
        assert runs[..0] == [];
        assert m + map[] == m;
      } else {
        var m2 := m[DialogueKey(run.level) := Text(run.dialogue)][AudioKey(run.level) := Text(run.audio.value)];
        StoreLevelsStopsAt(m2, runs[1..]);
        assert FirstFailure(runs[1..]) == i - 1;
        assert runs[1..][i - 1] == runs[i];
        StoreLevelsStopStep(m, runs, i);
      }
    }
  }

  /** The inductive step of `StoreLevelsStopsAt`: one more synthesised level in front. */
  lemma StoreLevelsStopStep(m: State, runs: seq<LevelRun>, i: nat)
    requires 1 <= i < |runs|
    requires runs[0].audio.Some?
    requires var m2 := m[DialogueKey(runs[0].level) := Text(runs[0].dialogue)]
                        [AudioKey(runs[0].level) := Text(runs[0].audio.value)];
      StoreLevels(m2, runs[1..]) ==
        ((m2 + LevelOutputs(runs[1..][..i - 1]))[DialogueKey(runs[i].level) := Text(runs[i].dialogue)],
         Some(runs[i].level))
    ensures StoreLevels(m, runs) ==
      ((m + LevelOutputs(runs[..i]))[DialogueKey(runs[i].level) := Text(runs[i].dialogue)], Some(runs[i].level))
  {
    var run := runs[0];
    var d := Text(run.dialogue);
    var a := Text(run.audio.value);
    LevelOutputsPrefix(runs, i);
    MapUpdatesThenUnion(m, DialogueKey(run.level), d, AudioKey(run.level), a, LevelOutputs(runs[1..][..i - 1]));
  }

  /** The level loop never removes an entry. */
  lemma {:induction false} StoreLevelsKeepsKey(m: State, runs: seq<LevelRun>, k: string)
    requires k in m
    ensures k in StoreLevels(m, runs).0
    decreases |runs|
  {
    if runs != [] && runs[0].audio.Some? {
      var run := runs[0];
      var m1 := m[DialogueKey(run.level) := Text(run.dialogue)];
      StoreLevelsKeepsKey(m1[AudioKey(run.level) := Text(run.audio.value)], runs[1..], k);
    }
  }

  // ---------------------------------------------------------------------------
  // Properties of an upload
  // ---------------------------------------------------------------------------

  /** The state after the three direct assignments of lines 51-53. */
  function Populated(m: State, fullText: string, combined: string, chunks: seq<string>): State
  {
    Cleared(m)[FullTextKey := Text(fullText)][SummaryKey := Text(combined)][ChunksKey := TextList(chunks)]
  }

  /** `Process` spelled out once the combined summary is known. */
  lemma ProcessWith(m: State, file: UploadedFile, s: Services, combined: string)
    requires CombinedSummary(file, s) == Some(combined)
    ensures var fullText := s.extract(file.content);
      var chunks := s.splitText(fullText, MaxChunkLength);
      var (m2, failed) := StoreLevels(Populated(m, fullText, combined, chunks), Runs(combined, Levels, s));
      var progress := ProgressFor(|fullText|);
      Process(m, file, s) ==
        if failed.Some? then (m2, SynthesisRaised(progress, failed.value))
        else (m2[LastFilenameKey := Text(file.name)], Completed(progress))
  {
  }

  /**
    A new file clears the cache before anything is computed: afterwards
    every entry other than `last_filename` is one a complete run writes,
    with the value this run computes (all dialogues come from the one
    combined summary), and `last_filename` is either the old one or, after a
    complete run, the new name.
  */
  lemma UploadClearsStale(m: State, file: UploadedFile, s: Services)
    requires !SameFile(m, file.name)
    ensures var (r, res) := AfterUpload(m, Some(file), s);
      var out := RunOutputs(file, s);
      && (forall k | k in r && k != LastFilenameKey :: k in out && r[k] == out[k])
      && (LastFilenameKey in r ==>
            (res.Completed? && r[LastFilenameKey] == Text(file.name))
            || (!res.Completed? && LastFilenameKey in m && r[LastFilenameKey] == m[LastFilenameKey]))
      && (!res.Completed? && LastFilenameKey in m ==> LastFilenameKey in r)
  {
    var (r, res) := AfterUpload(m, Some(file), s);
    if CombinedSummary(file, s).Some? {
      var combined := CombinedSummary(file, s).value;
      var fullText := s.extract(file.content);
      var chunks := s.splitText(fullText, MaxChunkLength);
      var runs := Runs(combined, Levels, s);
      ProcessWith(m, file, s, combined);
      LevelRunsDistinct(combined, s);
      PopulatedThenStored(m, fullText, combined, chunks, runs);
      assert RunOutputs(file, s) ==
        map[FullTextKey := Text(fullText), SummaryKey := Text(combined), ChunksKey := TextList(chunks)]
        + LevelOutputs(runs);
    }
  }

  /**
    After the assignments of lines 51-53 and the level loop, every entry but
    `last_filename` is one of the run's entries, and `last_filename` is the
    one from before the run.
  */
  lemma PopulatedThenStored(m: State, fullText: string, combined: string, chunks: seq<string>, runs: seq<LevelRun>)
    requires DistinctLevels(runs)
    ensures var m2 := StoreLevels(Populated(m, fullText, combined, chunks), runs).0;
      var out := map[FullTextKey := Text(fullText), SummaryKey := Text(combined), ChunksKey := TextList(chunks)]
        + LevelOutputs(runs);
      && (forall k | k in m2 && k != LastFilenameKey :: k in out && m2[k] == out[k])
      && (LastFilenameKey in m2 ==> LastFilenameKey in m && m2[LastFilenameKey] == m[LastFilenameKey])
      && (LastFilenameKey in m ==> LastFilenameKey in m2)
  {
    var m1 := Populated(m, fullText, combined, chunks);
    var m2 := StoreLevels(m1, runs).0;
    var lo := LevelOutputs(runs);
    var fixed := map[FullTextKey := Text(fullText), SummaryKey := Text(combined), ChunksKey := TextList(chunks)];
    var out := fixed + lo;
    StoreLevelsDrawnFrom(m1, runs);
    FixedKeysNotWritten(runs);
    PopulatedEntries(m, fullText, combined, chunks);
    if LastFilenameKey in m {
      StoreLevelsKeepsKey(m1, runs, LastFilenameKey);
    }
    forall k | k in m2 && k != LastFilenameKey
      ensures k in out && m2[k] == out[k]
    {
      if !(k in lo && m2[k] == lo[k]) {
        assert k in fixed && m2[k] == fixed[k];
        assert k !in lo;
      }
    }
  }

  /** Lines 51-53 over the cleared state: the three entries, and `last_filename` as before. */
  lemma PopulatedEntries(m: State, fullText: string, combined: string, chunks: seq<string>)
    ensures var m1 := Populated(m, fullText, combined, chunks);
      var fixed := map[FullTextKey := Text(fullText), SummaryKey := Text(combined), ChunksKey := TextList(chunks)];
      && (forall k | k in m1 && k != LastFilenameKey :: k in fixed && m1[k] == fixed[k])
      && (LastFilenameKey in m1 <==> LastFilenameKey in m)
      && (LastFilenameKey in m1 ==> m1[LastFilenameKey] == m[LastFilenameKey])
  {
    assert LastFilenameKey[0] == 'l' && FullTextKey[0] == 'f' && SummaryKey[0] == 's' && ChunksKey[0] == 'c';
  }

  /**
    A run that raises leaves exactly what was written before the raise. If
    the summariser raises, only `last_filename` survives the clearing. If
    synthesis raises, it does so at the first level `i` whose synthesis
    fails. The state is then the text, the summary and the chunks, the
    entries of the levels before `i`, and the dialogue of level `i`.
  */
  lemma UploadRaised(m: State, file: UploadedFile, s: Services)
    requires !SameFile(m, file.name)
    ensures var (r, res) := AfterUpload(m, Some(file), s);
      && (res.SummarizerRaised? <==> CombinedSummary(file, s).None?)
      && (res.SummarizerRaised? ==> r == Cleared(m))
      && (res.SynthesisRaised? ==>
            var combined := CombinedSummary(file, s).value;
            var fullText := s.extract(file.content);
            var chunks := s.splitText(fullText, MaxChunkLength);
            var runs := Runs(combined, Levels, s);
            var i := FirstFailure(runs);
            && i < |Levels|
            && res.level == Levels[i]
            && !s.synthesize(Dialogue(combined, Levels[i]), AudioPathFor(Levels[i], s))
            && r == (Populated(m, fullText, combined, chunks) + LevelOutputs(runs[..i]))
                      [DialogueKey(Levels[i]) := Text(Dialogue(combined, Levels[i]))])
  {
    if CombinedSummary(file, s).Some? {
      var combined := CombinedSummary(file, s).value;
      var fullText := s.extract(file.content);
      var chunks := s.splitText(fullText, MaxChunkLength);
      var m1 := Populated(m, fullText, combined, chunks);
      var runs := Runs(combined, Levels, s);
      ProcessWith(m, file, s, combined);
      StoreLevelsComplete(m1, runs);
      StoreLevelsStopsAt(m1, runs);
      RunsOfLevels(combined, Levels, s);
      var i := FirstFailure(runs);
      if i == |runs| {
        assert AllSynthesized(runs);
      } else {
        RunLevelOf(combined, Levels[i], s);
      }
    }
  }

  /**
    A run on file B that raises after line 52 leaves B's combined summary
    cached while `last_filename` still names the previous file A. Uploading
    A again is then treated as already loaded, so the page shows B's
    summary under A.
  */
  lemma StaleSummaryAfterRaise(m: State, a: UploadedFile, b: UploadedFile, s: Services, s': Services)
    requires SameFile(m, a.name)
    requires a.name != b.name
    requires AfterUpload(m, Some(b), s).1.SynthesisRaised?
    ensures var r := AfterUpload(m, Some(b), s).0;
      && CombinedSummary(b, s).Some?
      && SummaryKey in r && r[SummaryKey] == Text(CombinedSummary(b, s).value)
      && AfterUpload(r, Some(a), s') == (r, AlreadyLoaded)
  {
    assert !SameFile(m, b.name);
    FailedRunIsRetried(m, b, s, s');
    RaisedRunKeepsSummary(m, b, s);
  }

  /** A run whose synthesis raises has cached its combined summary. */
  lemma RaisedRunKeepsSummary(m: State, file: UploadedFile, s: Services)
    requires !SameFile(m, file.name)
    requires AfterUpload(m, Some(file), s).1.SynthesisRaised?
    ensures var r := AfterUpload(m, Some(file), s).0;
      && CombinedSummary(file, s).Some?
      && SummaryKey in r && r[SummaryKey] == Text(CombinedSummary(file, s).value)
  {
    UploadRaised(m, file, s);
    var combined := CombinedSummary(file, s).value;
    var fullText := s.extract(file.content);
    var chunks := s.splitText(fullText, MaxChunkLength);
    var runs := Runs(combined, Levels, s);
    var i := FirstFailure(runs);
    FixedKeysNotWritten(runs[..i]);
    SummaryBeforeLevel(m, fullText, combined, chunks, LevelOutputs(runs[..i]), Levels[i], Text(Dialogue(combined, Levels[i])));
  }

  /** The level loop leaves the combined summary written before it in place. */
  lemma SummaryBeforeLevel(m: State, fullText: string, combined: string, chunks: seq<string>, lo: State, level: string, v: Value)
    requires SummaryKey !in lo
    ensures var r := (Populated(m, fullText, combined, chunks) + lo)[DialogueKey(level) := v];
      SummaryKey in r && r[SummaryKey] == Text(combined)
  {
    KeysDistinct(level, level);
  }

  /**
    A run completes exactly when a new file is processed, every chunk is
    summarised and every level is synthesised; it then leaves exactly the
    run's entries plus `last_filename` set to the uploaded name.
  */
  lemma UploadCompletes(m: State, file: UploadedFile, s: Services)
    ensures var (r, res) := AfterUpload(m, Some(file), s);
      && (res.Completed? <==>
            && !SameFile(m, file.name)
            && CombinedSummary(file, s).Some?
            && forall l | l in Levels ::
                 s.synthesize(Dialogue(CombinedSummary(file, s).value, l), AudioPathFor(l, s)))
      && (res.Completed? ==> r == RunOutputs(file, s)[LastFilenameKey := Text(file.name)])
  {
    if !SameFile(m, file.name) && CombinedSummary(file, s).Some? {
      var combined := CombinedSummary(file, s).value;
      var fullText := s.extract(file.content);
      var chunks := s.splitText(fullText, MaxChunkLength);
      var m1 := Populated(m, fullText, combined, chunks);
      var runs := Runs(combined, Levels, s);
      ProcessWith(m, file, s, combined);
      StoreLevelsComplete(m1, runs);
      FixedKeysNotWritten(runs);
      PopulatedThenWritten(m, fullText, combined, chunks, LevelOutputs(runs), file.name);
      AllSynthesizedLevels(combined, s);
    }
  }

  /** The runs of every level synthesise exactly when the speech service succeeds on each level. */
  lemma AllSynthesizedLevels(combined: string, s: Services)
    ensures AllSynthesized(Runs(combined, Levels, s)) <==>
      forall l | l in Levels :: s.synthesize(Dialogue(combined, l), AudioPathFor(l, s))
  {
    var runs := Runs(combined, Levels, s);
    RunsOfLevels(combined, Levels, s);
    forall i | 0 <= i < |Levels|
      ensures runs[i].audio.Some? <==> s.synthesize(Dialogue(combined, Levels[i]), AudioPathFor(Levels[i], s))
    {
      RunLevelOf(combined, Levels[i], s);
    }
  }

  /**
    After a complete run the text, the combined summary, and every level's
    dialogue and audio path are cached under their keys.
  */
  lemma CompletedRunEntries(m: State, file: UploadedFile, s: Services)
    requires AfterUpload(m, Some(file), s).1.Completed?
    ensures CombinedSummary(file, s).Some?
    ensures var r := AfterUpload(m, Some(file), s).0;
      var combined := CombinedSummary(file, s).value;
      && LastFilenameKey in r && r[LastFilenameKey] == Text(file.name)
      && FullTextKey in r && r[FullTextKey] == Text(s.extract(file.content))
      && SummaryKey in r && r[SummaryKey] == Text(combined)
      && forall l | l in Levels ::
           && DialogueKey(l) in r && r[DialogueKey(l)] == Text(Dialogue(combined, l))
           && AudioKey(l) in r && r[AudioKey(l)] == Text(AudioPathFor(l, s))
  {
    CompletedFixedEntries(m, file, s);
    forall l | l in Levels
      ensures var r := AfterUpload(m, Some(file), s).0;
        && DialogueKey(l) in r && r[DialogueKey(l)] == Text(Dialogue(CombinedSummary(file, s).value, l))
        && AudioKey(l) in r && r[AudioKey(l)] == Text(AudioPathFor(l, s))
    {
      CompletedLevelEntries(m, file, s, l);
    }
  }

  /** After a complete run the name, the text and the combined summary are cached. */
  lemma CompletedFixedEntries(m: State, file: UploadedFile, s: Services)
    requires AfterUpload(m, Some(file), s).1.Completed?
    ensures CombinedSummary(file, s).Some?
    ensures var r := AfterUpload(m, Some(file), s).0;
      && LastFilenameKey in r && r[LastFilenameKey] == Text(file.name)
      && FullTextKey in r && r[FullTextKey] == Text(s.extract(file.content))
      && SummaryKey in r && r[SummaryKey] == Text(CombinedSummary(file, s).value)
  {
    UploadCompletes(m, file, s);
    var combined := CombinedSummary(file, s).value;
    var fullText := s.extract(file.content);
    var chunks := s.splitText(fullText, MaxChunkLength);
    WrittenEntries(fullText, combined, chunks, Runs(combined, Levels, s), file.name);
  }

  /** After a complete run one level's dialogue and audio path are cached. */
  lemma CompletedLevelEntries(m: State, file: UploadedFile, s: Services, l: string)
    requires AfterUpload(m, Some(file), s).1.Completed?
    requires l in Levels
    ensures CombinedSummary(file, s).Some?
    ensures var r := AfterUpload(m, Some(file), s).0;
      && DialogueKey(l) in r && r[DialogueKey(l)] == Text(Dialogue(CombinedSummary(file, s).value, l))
      && AudioKey(l) in r && r[AudioKey(l)] == Text(AudioPathFor(l, s))
  {
    UploadCompletes(m, file, s);
    var combined := CombinedSummary(file, s).value;
    var fullText := s.extract(file.content);
    var chunks := s.splitText(fullText, MaxChunkLength);
    var runs := Runs(combined, Levels, s);
    var i :| 0 <= i < |Levels| && Levels[i] == l;
    RunAt(combined, Levels, s, i);
    RunLevelOf(combined, l, s);
    LevelRunsDistinct(combined, s);
    AllSynthesizedLevels(combined, s);
    WrittenLevelEntries(fullText, combined, chunks, runs, file.name, i);
  }

  /** The fixed entries of a complete run, read back key by key. */
  lemma WrittenEntries(fullText: string, combined: string, chunks: seq<string>, runs: seq<LevelRun>, name: string)
    ensures var r := (map[FullTextKey := Text(fullText), SummaryKey := Text(combined), ChunksKey := TextList(chunks)]
                      + LevelOutputs(runs))[LastFilenameKey := Text(name)];
      && LastFilenameKey in r && r[LastFilenameKey] == Text(name)
      && FullTextKey in r && r[FullTextKey] == Text(fullText)
      && SummaryKey in r && r[SummaryKey] == Text(combined)
  {
    FixedKeysNotWritten(runs);
    assert LastFilenameKey[0] == 'l' && FullTextKey[0] == 'f' && SummaryKey[0] == 's' && ChunksKey[0] == 'c';
  }

  /** The entries of one level after a complete run, read back. */
  lemma WrittenLevelEntries(fullText: string, combined: string, chunks: seq<string>, runs: seq<LevelRun>, name: string, i: nat)
    requires i < |runs| && DistinctLevels(runs)
    requires runs[i].audio.Some?
    ensures var r := (map[FullTextKey := Text(fullText), SummaryKey := Text(combined), ChunksKey := TextList(chunks)]
                      + LevelOutputs(runs))[LastFilenameKey := Text(name)];
      var run := runs[i];
      && DialogueKey(run.level) in r && r[DialogueKey(run.level)] == Text(run.dialogue)
      && AudioKey(run.level) in r && r[AudioKey(run.level)] == Text(run.audio.value)
  {
    LevelOutputsAt(runs, i);
    KeysDistinct(runs[i].level, runs[i].level);
  }

  /**
    After a complete level loop over the cleared and populated state,
    setting `last_filename` leaves exactly the run's entries and the name:
    nothing of the previous state survives.
  */
  lemma PopulatedThenWritten(m: State, fullText: string, combined: string, chunks: seq<string>, lo: State, name: string)
    requires LastFilenameKey !in lo && FullTextKey !in lo && SummaryKey !in lo && ChunksKey !in lo
    ensures var base := map[FullTextKey := Text(fullText), SummaryKey := Text(combined), ChunksKey := TextList(chunks)];
      (Populated(m, fullText, combined, chunks) + lo)[LastFilenameKey := Text(name)]
      == (base + lo)[LastFilenameKey := Text(name)]
  {
    var base := map[FullTextKey := Text(fullText), SummaryKey := Text(combined), ChunksKey := TextList(chunks)];
    var lhs := (Populated(m, fullText, combined, chunks) + lo)[LastFilenameKey := Text(name)];
    var rhs := (base + lo)[LastFilenameKey := Text(name)];
    assert lhs.Keys == rhs.Keys;
    forall k | k in lhs
      ensures lhs[k] == rhs[k]
    {
    }
  }

  /** A completed run is cached: uploading the same file again changes nothing, whatever the services. */
  lemma CompletedRunIsCached(m: State, file: UploadedFile, s: Services, s': Services)
    requires AfterUpload(m, Some(file), s).1.Completed?
    ensures var r := AfterUpload(m, Some(file), s).0;
      AfterUpload(r, Some(file), s') == (r, AlreadyLoaded)
  {
    UploadCompletes(m, file, s);
  }

  /**
    A run that raises part way leaves `last_filename` as it was, so the next
    execution with the same file processes it again.
  */
  lemma FailedRunIsRetried(m: State, file: UploadedFile, s: Services, s': Services)
    requires !SameFile(m, file.name)
    requires !AfterUpload(m, Some(file), s).1.Completed?
    ensures var r := AfterUpload(m, Some(file), s).0;
      && (LastFilenameKey in r <==> LastFilenameKey in m)
      && (LastFilenameKey in m ==> r[LastFilenameKey] == m[LastFilenameKey])
      && !SameFile(r, file.name)
      && AfterUpload(r, Some(file), s').1 != AlreadyLoaded
  {
    UploadClearsStale(m, file, s);
    if LastFilenameKey in m && CombinedSummary(file, s).Some? {
      var combined := CombinedSummary(file, s).value;
      var fullText := s.extract(file.content);
      var chunks := s.splitText(fullText, MaxChunkLength);
      var m1 := Populated(m, fullText, combined, chunks);
      ProcessWith(m, file, s, combined);
      StoreLevelsKeepsKey(m1, Runs(combined, Levels, s), LastFilenameKey);
    }
  }

  /**
    After a new file, a level outside the three generated ones reads as ""
    for both its dialogue and its audio path.
  */
  lemma LookupOtherLevel(m: State, file: UploadedFile, s: Services, level: string)
    requires !SameFile(m, file.name)
    requires level !in Levels
    ensures var r := AfterUpload(m, Some(file), s).0;
      && GetOr(r, DialogueKey(level), Text("")) == Text("")
      && GetOr(r, AudioKey(level), Text("")) == Text("")
  {
    var r := AfterUpload(m, Some(file), s).0;
    UploadClearsStale(m, file, s);
    RunOutputsOtherLevel(file, s, level);
    KeysDistinct(level, level);
    assert DialogueKey(level) !in r && AudioKey(level) !in r;
  }

  /** A run writes no entry for a level outside the three generated ones. */
  lemma RunOutputsOtherLevel(file: UploadedFile, s: Services, level: string)
    requires level !in Levels
    ensures DialogueKey(level) !in RunOutputs(file, s) && AudioKey(level) !in RunOutputs(file, s)
  {
    if CombinedSummary(file, s).Some? {
      var combined := CombinedSummary(file, s).value;
      var fullText := s.extract(file.content);
      RunsLevels(combined, Levels, s);
      OutputsOtherLevel(fullText, combined, s.splitText(fullText, MaxChunkLength), Runs(combined, Levels, s), level);
    }
  }

  /** A run's entries hold no key of a level none of its level runs is for. */
  lemma OutputsOtherLevel(fullText: string, combined: string, chunks: seq<string>, runs: seq<LevelRun>, level: string)
    requires forall j | 0 <= j < |runs| :: runs[j].level != level
    ensures DialogueKey(level) !in
      map[FullTextKey := Text(fullText), SummaryKey := Text(combined), ChunksKey := TextList(chunks)] + LevelOutputs(runs)
    ensures AudioKey(level) !in
      map[FullTextKey := Text(fullText), SummaryKey := Text(combined), ChunksKey := TextList(chunks)] + LevelOutputs(runs)
  {
    KeysDistinct(level, level);
    NotFixedKey(fullText, combined, chunks, DialogueKey(level));
    NotFixedKey(fullText, combined, chunks, AudioKey(level));
    LevelKeysOnlyOf(runs, level);
  }

  /** A key other than the four fixed ones is not among the entries written before the level loop. */
  lemma NotFixedKey(fullText: string, combined: string, chunks: seq<string>, k: string)
    requires k !in {LastFilenameKey, FullTextKey, SummaryKey, ChunksKey}
    ensures k !in map[FullTextKey := Text(fullText), SummaryKey := Text(combined), ChunksKey := TextList(chunks)]
  {
  }

  /** After a complete run each of the three levels reads as its generated dialogue and audio path. */
  lemma LookupAfterCompletion(m: State, file: UploadedFile, s: Services, level: string)
    requires AfterUpload(m, Some(file), s).1.Completed?
    requires level in Levels
    ensures var r := AfterUpload(m, Some(file), s).0;
      && GetOr(r, DialogueKey(level), Text("")) == Text(Dialogue(CombinedSummary(file, s).value, level))
      && GetOr(r, AudioKey(level), Text("")) == Text(AudioPathFor(level, s))
  {
    CompletedRunEntries(m, file, s);
  }

  // ---------------------------------------------------------------------------
  // The session object
  // ---------------------------------------------------------------------------

  /** `st.session_state`: a dictionary the page changes in place. */
  class SessionState {
    var entries: State

    /** A fresh session holds nothing. */
    constructor ()
      ensures entries == map[]
    {
      entries := map[];
    }

    /** Lines 26-61: one execution of the upload block. */
    method Upload(file: Option<UploadedFile>, s: Services) returns (result: RunResult)
      modifies this
      ensures (entries, result) == AfterUpload(old(entries), file, s)
    {
      if file.None? {
        return NoFile;
      }
      var f := file.value;
      if LastFilenameKey in entries && entries[LastFilenameKey] == Text(f.name) {
        return AlreadyLoaded;
      }

      ClearStale();

      var fullText := s.extract(f.content);
      var progress := ProgressFor(|fullText|);
      var chunks := s.splitText(fullText, MaxChunkLength);
      var summaries := SummarizeChunks(chunks, s.summarize);
      if summaries.None? {
        return SummarizerRaised(progress);
      }
      var combined := Join(summaries.value);

      entries := entries[FullTextKey := Text(fullText)];
      entries := entries[SummaryKey := Text(combined)];
      entries := entries[ChunksKey := TextList(chunks)];

      var failed := StoreAllLevels(combined, s);
      if failed.Some? {
        return SynthesisRaised(progress, failed.value);
      }
      entries := entries[LastFilenameKey := Text(f.name)];
      result := Completed(progress);
    }

    /** Lines 29-31: delete every key but `last_filename`, iterating over a snapshot of the keys. */
    method ClearStale()
      modifies this
      ensures entries == Cleared(old(entries))
    {
      ghost var before := entries;
      var keys := entries.Keys;
      while keys != {}
        invariant keys <= before.Keys
        invariant entries == map k | k in before && (k in keys || k == LastFilenameKey) :: before[k]
        decreases keys
      {
        var key :| key in keys;
        if key != LastFilenameKey {
          entries := entries - {key};
        }
        keys := keys - {key};
      }
    }

    /**
      Lines 54-61: for each level, store its dialogue, then synthesise and
      store its audio path; stop at the first level whose synthesis raises
      and report it.
    */
    method StoreAllLevels(combined: string, s: Services) returns (failed: Option<string>)
      modifies this
      ensures (entries, failed) == StoreLevels(old(entries), Runs(combined, Levels, s))
    {
      ghost var start := entries;
      ghost var runs := Runs(combined, Levels, s);
      RunsOfLevels(combined, Levels, s);
      var i := 0;
      while i < |Levels|
        invariant 0 <= i <= |Levels|
        invariant StoreLevels(entries, runs[i..]) == StoreLevels(start, runs)
      {
        var level := Levels[i];
        var dialogue := GenerateDialogue(TrimSummary(combined, level));
        entries := entries[DialogueKey(level) := Text(dialogue)];
        var audio := GenerateAudio(dialogue, level, AudioDir, s.audioHex(level), s.synthesize);
        assert runs[i] == LevelRun(level, dialogue, audio);
        if audio.None? {
          return Some(level);
        }
        entries := entries[AudioKey(level) := Text(audio.value)];
        assert runs[i..][1..] == runs[i + 1..];
        i := i + 1;
      }
      failed := None;
    }

    /** Lines 71-72: the cached dialogue and audio path of a level, "" when missing. */
    method Lookup(level: string) returns (dialogue: Value, audioPath: Value)
      ensures dialogue == GetOr(entries, DialogueKey(level), Text(""))
      ensures audioPath == GetOr(entries, AudioKey(level), Text(""))
    {
      dialogue := if DialogueKey(level) in entries then entries[DialogueKey(level)] else Text("");
      audioPath := if AudioKey(level) in entries then entries[AudioKey(level)] else Text("");
    }
  }
}
