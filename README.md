# Research Buddy core in Dafny

Research Buddy is a Streamlit page that turns an uploaded research paper
(PDF) into a podcast-style script and an MP3 at three detail levels:
"Summarize", "Brief" and "Deep Dive". This project models the part of the
page that is deterministic and proves properties of it:

- `paragraphs.dfy`, module `Paragraphs`: Python's `str.split("\n\n")` and
  `"\n\n".join(...)`. `Split` scans left to right and cuts at every
  non-overlapping separator, and always gives at least one piece. The two
  functions are proved to be inverse bijections between strings and
  "canonical" paragraph lists.
- `utils.dfy`, module `Utils` (utils01.py):
  - `trim_summary` as `TrimSummary`, with its dead `else summary_text`
    fallback kept as written;
  - the narration template `generate_dialogue` as `GenerateDialogue`, with
    its inverse `SummaryOfDialogue`;
  - the summarisation loop `summarize_chunks` as the method
    `SummarizeChunks`, proved against the function `SummarizeAll`;
  - the audio path `generate_audio` builds, with POSIX `os.path.join` and
    `os.path.basename`.
- `app.dfy`, module `App` (App01.py):
  - the session cache `st.session_state` as the class `SessionState`, whose
    `entries` map the page changes in place;
  - its `Upload` method, one execution of the upload block (lines 26-61).
    The method is proved equal to the specification function
    `AfterUpload`, and lemmas about `AfterUpload` state what an upload
    keeps, clears and writes;
  - the progress message chosen from the text length;
  - the cached lookup of a level, with `""` as the default.
- `script_name.dfy`, module `ScriptName`: the file name a level's script
  is downloaded under (App01.py line 104).
- `wrappers.dfy`, module `Wrappers`: the `Option` type.

The model has these external collaborators, each passed in as a function
value inside the `App.Services` datatype:

- PDF extraction: bytes to text. Its own failures already arrive as text.
- The chunker `split_text` (textwrap).
- The summarisation model. `None` means it raised.
- gTTS synthesis into a path. `false` means it raised.
- The random `uuid4().hex` drawn for each level.

A run is therefore a function of the session state, the upload and the
services. An exception from the summariser or the synthesiser ends the run
at that point, leaving whatever the block had already written. The model
reports such runs as `SummarizerRaised` and `SynthesisRaised`.

## Model

| member | source | states |
|---|---|---|
| Paragraphs.Split | utils01.py:155 | `summary_text.split("\n\n")` always has at least one piece, so `paragraphs` is never empty |
| Paragraphs.JoinSplit | utils01.py:155 | joining the paragraphs from `split("\n\n")` gives back the original string |
| Paragraphs.SplitJoin | utils01.py:159 | splitting the join of a canonical paragraph list gives the list back, so `split` and `join` are inverse bijections |
| Paragraphs.SplitCanonical | utils01.py:155 | every split is non-empty; no piece contains a blank line; no piece but the last ends with a newline |
| Paragraphs.SplitFirst | utils01.py:155-157 | the first piece is the prefix of the text ending just before the leftmost `"\n\n"`, or the whole text when there is none |
| Paragraphs.SplitSingle | utils01.py:155 | a text splits into a single piece exactly when it contains no `"\n\n"` |
| Paragraphs.JoinAppend | utils01.py:159 | joining a list equals joining its first n pieces, a separator, and joining the rest |
| Paragraphs.JoinPrefixOfSplit | utils01.py:159 | joining the first n paragraphs of a split gives a prefix of the text |
| Utils.TrimSummary | utils01.py:144-161 | for every level the trimmed summary is a prefix of the summary |
| Utils.TrimOtherLevel | utils01.py:160-161 | any level other than "Summarize" and "Brief" returns the summary unchanged |
| Utils.TrimSummarizeFirstParagraph | utils01.py:155-157 | "Summarize" returns the text before the first blank line, or the whole summary when there is none. The result is a prefix, never contains `"\n\n"`, and equals the input exactly when the input has no blank line. The `else summary_text` fallback is dead because `Split` never returns an empty list |
| Utils.TrimBriefFirstThree | utils01.py:155-159 | "Brief" returns the whole summary when it has fewer than three paragraphs. Otherwise it returns the first three joined by blank lines, which is a prefix of the summary that splits back into exactly those three paragraphs. With more than three paragraphs a separator follows that prefix |
| Utils.TrimIdempotent | utils01.py:155-161 | trimming a trimmed summary again to the same level changes nothing |
| Utils.TrimLevelsNested | utils01.py:155-161 | the "Summarize" text is a prefix of the "Brief" text, which is a prefix of the "Deep Dive" text |
| Utils.GenerateDialogue | utils01.py:109-117 | the script is the fixed introduction, the summary and the fixed closing, and the inverse reads the summary back from it |
| Utils.DialogueOfSummary | utils01.py:109-117 | a string the inverse accepts is the script of the summary it reads back |
| Utils.DialogueInjective | utils01.py:109-117 | different summaries give different scripts |
| Utils.SummarizeAll | utils01.py:90-94 | the result exists exactly when the model succeeds on every chunk; it then has one entry per chunk, the i-th being the model's output for the i-th chunk |
| Utils.SummarizeChunks | utils01.py:90-94 | the appending loop computes exactly `SummarizeAll`: the ordered, pointwise map of the model over the chunks, or the model's failure |
| Utils.AudioFileName | utils01.py:135 | `podcast_<level>_<hex>.mp3` is a single path component when the level holds no slash and the id is a hex id |
| Utils.PathJoin | utils01.py:136 | `os.path.join(dir, name)` ends with `name`, and starts with `dir` unless `name` is absolute |
| Utils.Basename | App01.py:85 | `os.path.basename` is a suffix of the path and holds no slash |
| Utils.AudioPath | utils01.py:135-136 | the audio path lies inside the output folder and ends with the level's file name |
| Utils.GenerateAudio | utils01.py:134-139 | the returned path is `output_dir` joined with `podcast_<level>_<hex>.mp3`, returned exactly when synthesis into that path succeeds |
| Utils.AudioPathBasename | utils01.py:135-136 | the basename of the audio path is the generated `podcast_<level>_<hex>.mp3`, for any output folder and any level without a slash |
| Utils.BasenameOfJoined | App01.py:85 | the basename of a folder ending in a slash followed by a slash-free name is that name |
| Utils.AudioPathSameName | utils01.py:135-136 | two audio paths in one folder are equal only when their file names are |
| Utils.AudioFileNameUnique | utils01.py:135 | a file name `podcast_<level>_<hex>.mp3` with a 32-digit id gives back its level and its id |
| Utils.AudioPathUnique | utils01.py:135-136 | two audio paths in one folder coincide only for the same level and the same hex id |
| ScriptName.ScriptFileName | App01.py:104 | the script name is "podcast_script_", then the level character by character lower-cased with each space turned into an underscore, then ".txt" |
| ScriptName.ScriptFileNamesOfLevels | App01.py:104 | the three levels give podcast_script_summarize.txt, podcast_script_brief.txt and podcast_script_deep_dive.txt |
| App.ProgressFor | App01.py:36-44 | exactly one of four estimates, for lengths below 5000, 5000-9999, 10000-19999 and 20000 or more |
| App.ProgressMessage | App01.py:38-44 | each message starts with its band's emoji, from which the band is read back |
| App.ProgressMonotone | App01.py:36-44 | a longer text never gets a shorter estimate |
| App.ProgressMessagesDistinct | App01.py:38-44 | the four messages differ, so the message identifies the length band |
| App.GetOr | App01.py:71-72 | `st.session_state.get(key, default)`: the stored value when the key is present, the default otherwise |
| App.Cleared | App01.py:29-31 | the deletion loop leaves only `last_filename`, with its old value, or nothing when it was absent |
| App.Runs | App01.py:56-59 | the loop body runs once per level: one run record (level, script, audio outcome) for each level |
| App.RunsOfLevels | App01.py:55-59 | the i-th run is the loop body for the i-th level, in the order "Summarize", "Brief", "Deep Dive" |
| App.RunAt | App01.py:55-59 | the run at any one position is the loop body for the level at that position |
| App.RunsLevels | App01.py:55 | the i-th run is for the i-th level, so every run is for one of the levels |
| App.RunLevelOf | App01.py:56-59 | a level's run holds the script of the combined summary trimmed to that level; its audio is present exactly when synthesis of that script into the level's path succeeds, and is then that path |
| App.LevelRunsDistinct | App01.py:55 | the three runs are for three different levels, so no run's keys overwrite another's |
| App.AllSynthesizedLevels | App01.py:55-59 | every run's synthesis succeeds exactly when synthesis succeeds for the script and path of each of the three levels |
| App.StoreLevels | App01.py:55-59 | a reported failure names a level whose run's synthesis raised |
| App.FirstFailure | App01.py:55-59 | the first run whose synthesis raises: every run before it synthesised |
| App.StoreLevelsStopsAt | App01.py:55-59 | a loop that raises stops at the first failing run: the state is the starting state, the entries of the earlier runs, and the dialogue of the failing level without its audio path |
| App.StoreLevelsDrawnFrom | App01.py:55-59 | for runs of different levels, every entry after the level loop is either an entry from before the loop or one the loop writes for a run |
| App.StoreLevelsComplete | App01.py:55-59 | the loop finishes without a synthesis failure exactly when every run synthesises, and it then adds exactly the runs' entries |
| App.StoreLevelsKeepsKey | App01.py:55-59 | the level loop never removes an entry |
| App.LevelOutputsAt | App01.py:58-59 | for runs of different levels, a synthesised run's script and audio path are the entries under its level's two keys |
| App.LevelKeysOnlyOf | App01.py:58-59 | the loop writes no dialogue or audio key for a level outside the ones it runs |
| App.FixedKeysNotWritten | App01.py:58-59 | the loop never writes `last_filename`, `full_text`, `summary` or `chunks` |
| App.Process | App01.py:29-61 | a run on a new file completes or raises in the summariser or the synthesiser; its estimate is the band of the extracted text's length; a synthesis failure names one of the three levels; a completed run caches the uploaded name |
| App.AfterUpload | App01.py:26-61 | with no upload, or an upload whose name equals the cached `last_filename`, the state is unchanged; every other upload is processed; a completed run caches the uploaded name |
| App.PopulatedThenStored | App01.py:29-59 | after clearing, the three assignments and the level loop, every entry but `last_filename` is one the run writes; `last_filename` is present afterwards exactly when it was before, with its old value |
| App.UploadClearsStale | App01.py:27-61 | after a new file, every entry but `last_filename` is one a complete run writes, holding the value this run computes, so nothing stale survives. `last_filename` is the new name after a complete run; after a run that raises it is still present if it was before, with its old value |
| App.UploadRaised | App01.py:29-61 | a run raises in the summariser exactly when some chunk fails, leaving only `last_filename`. A synthesis failure happens at the first failing level, and leaves the text, summary and chunks, the entries of the earlier levels, and that level's dialogue |
| App.UploadCompletes | App01.py:27-61 | a run completes exactly when the file is new, every chunk is summarised and every level synthesised. The state is then exactly the run's entries plus `last_filename` set to the uploaded name |
| App.CompletedRunEntries | App01.py:51-61 | after a complete run the text, the combined summary, `last_filename`, and every level's dialogue (derived from the one combined summary) and audio path are cached |
| App.CompletedFixedEntries | App01.py:51-61 | after a complete run `last_filename`, the text and the combined summary are cached |
| App.CompletedLevelEntries | App01.py:55-61 | after a complete run one level's script and audio path are cached under its keys |
| App.CompletedRunIsCached | App01.py:26-61 | after a complete run, uploading the same file again changes nothing, whatever the services do |
| App.FailedRunIsRetried | App01.py:29-61 | a run that raises part way leaves `last_filename` as it was, so the same file is processed again next time |
| App.RaisedRunKeepsSummary | App01.py:52-59 | a run whose synthesis raises has already cached its combined summary |
| App.StaleSummaryAfterRaise | App01.py:26-61 | when a run on file B raises in synthesis after file A was cached, B's summary is cached while `last_filename` still names A, and uploading A again is treated as already loaded |
| App.LookupOtherLevel | App01.py:71-72 | after a new file, a level other than the three generated ones reads as "" for its dialogue and its audio path |
| App.RunOutputsOtherLevel | App01.py:51-59 | a run writes no dialogue or audio entry for a level other than the three generated ones |
| App.LookupAfterCompletion | App01.py:71-72 | after a complete run each generated level reads as its generated dialogue and audio path |
| App.SessionState.constructor | App01.py:27 | a new session holds no entries, so it has no `last_filename` |
| App.SessionState.Upload | App01.py:26-61 | one execution of the upload block (the key-deletion loop, the three assignments, the per-level loop, `last_filename` last) leaves exactly the state and outcome of `AfterUpload` |
| App.SessionState.ClearStale | App01.py:29-31 | the deletion loop over a snapshot of the keys leaves exactly `Cleared` of the old entries: only `last_filename` survives |
| App.SessionState.StoreAllLevels | App01.py:55-59 | the level loop, run in place, leaves exactly the state and outcome of `StoreLevels` over the three levels' runs |
| App.SessionState.Lookup | App01.py:71-72 | the cached dialogue and audio path of a level, or "" when missing |

## Left out

- PDF extraction (utils01.py:42-59): the temporary file, PyMuPDF and `os.remove` are I/O. Extraction is an opaque function from bytes to text. Its error message (line 59) is ordinary text, and the page summarises it like paper content.
- `split_text` (utils01.py:75): `textwrap.wrap` is library code that is not part of this model. It is an opaque function of the text and the width 2000, so no claim is made about chunk widths or word boundaries.
- The summarisation model (utils01.py:27, 92) is an opaque function. A raised exception is `None`. The parameters `max_length=200` and `min_length=50` are part of the call the function stands for.
- gTTS synthesis, `tts.save` and `os.makedirs` (utils01.py:134, 137-138) are network and filesystem effects. Synthesis is a predicate on the text and the path; `false` means it raised.
- `uuid.uuid4()` (utils01.py:135) is randomness. The hex id of each level is a parameter. `Utils.AudioPathUnique` states when two paths coincide, but no claim is made that two draws differ.
- Utils.PathJoin / Utils.Basename: only POSIX `os.path.join` and `os.path.basename` for two components are modelled, not the Windows rules.
- ScriptName.Lower: only ASCII letters are lower-cased. Python's `str.lower()` also folds non-ASCII letters, which the three level names do not contain.
- The Streamlit page itself is UI and file I/O: page setup, headers, the spinner, `st.info` and `st.success` output, the radio widget, the audio player, both download buttons, the HTML script panel and reading the audio file (App01.py:8-23, 45, 63, 66-106, apart from lines 71-72, 85 and 104). This includes the gating on `"summary"` at line 66.
- The level loop is modelled as the list of its three iterations' results (level, script, audio outcome), computed up front from the services. `StoreLevels` consumes them in order and stops at the first failed synthesis, so iterations after a failure are computed in the model but never affect the state, as in the source where they never run.
- Interruption of a run by the browser and concurrent sessions are not modelled. One execution of the upload block runs to its end or to the first exception.
