# VideoSplicer job pipeline in Dafny

VideoSplicer's `main.py` takes a job document (a `UUID` and a list of
clips, each a source video `name` with `start`, `end` and `fade` times in
seconds). It prefixes every clip name with a configured source root and
cuts each clip with ffmpeg into `<UUID>/<index>.intermediate.mp4`, with
a fade-in at the start and a fade-out at the end. It then writes
`<UUID>/list.txt`, naming every entry of the job folder that ends in
`.intermediate.mp4`, and has ffmpeg concatenate those into
`<UUID>/result.mp4`. Last, it creates an empty `<UUID>/DONE` marker.

The model is split by concern:

- `text.dfy` (`Text`): prefix and suffix tests, and delimiter splitting.
  It also holds Python's `str()` of an integer (`IntToString`) with a
  reader (`ParseInt`) that undoes it.
- `paths.dfy` (`Paths`): `os.path.join` for two components, as POSIX
  Python defines it. Also the intermediate, manifest, result and marker
  paths of a job.
- `clips.dfy` (`Clips`): the clip record and `insert_root_path`, which
  rewrites an array of clips in place. Also `files_exists`, with its
  early exit.
- `ffmpeg.dfy` (`Ffmpeg`): the argument vectors of `cut_fade_video` and of
  the concatenation. Each comes with a reader of that vector, and
  round-trip lemmas say exactly what each command asks of ffmpeg.
- `manifest.dfy` (`Manifest`): `create_sub_video_files_txt`, with the job
  folder's listing given as an input, and a reader of the manifest text.
- `pipeline.dfy` (`Pipeline`): `merge_video_files`, `annotate_done` and
  `start_processing`. The filesystem and subprocess work becomes a trace of
  effects: make the folder, run a command, write a file, touch a file.
  A caller-supplied predicate `raises` says which effects raise. As
  in Python, the first effect that raises ends the run.

Concatenating the clips of a job suggests clip order, but `main.py:89-90`
lists the intermediate files in the order the folder listing returns
them. The model follows the code: it keeps the listing order and proves
both what this gives when the listing is in clip order
(`Manifest.ManifestInClipOrder`) and that the listing alone decides
(`Manifest.ListingOrderDecides`, `Manifest.StaleIntermediateIncluded`).

## Model

| member | source | states |
|---|---|---|
| Text.IntToStringRoundTrip | main.py:65-74 | the decimal text that `format`/`str` give an integer reads back as that integer, negative numbers included |
| Text.IntToString | main.py:73-74 | `str` of an integer is nonempty and made of digits and '-' only; it reads back by `Text.IntToStringRoundTrip` |
| Text.IntToStringInjective | main.py:73-74 | two different integers never render to the same text |
| Paths.Join | main.py:87 | `os.path.join(a, b)` ends with `b`; an absolute `b` is the whole result; otherwise the result is `a + b` when `a` is empty or ends in '/', and `a + "/" + b` else |
| Paths.JoinInjective | main.py:136 | joining one folder with two different relative names gives two different paths |
| Paths.IntermediateName | main.py:136 | `str(index) + output_postfix` ends with the suffix and is a relative name |
| Paths.IntermediatePath | main.py:136 | clip `index`'s output starts with the job folder and ends with the suffix; for a nonempty folder not ending in '/' it is exactly folder + "/" + the intermediate name |
| Paths.IntermediateNameInjective | main.py:136 | different clip indices give different intermediate names |
| Paths.IntermediatePathInjective | main.py:135-137 | different clip indices give different intermediate paths |
| Paths.ControlFilesNotIntermediate | main.py:87-116 | `list.txt`, `result.mp4` and `DONE` do not carry the intermediate suffix |
| Paths.IntermediateIsNoControlFile | main.py:87-136 | an intermediate path is never the manifest, the result or the marker path |
| Clips.Rooted | main.py:40-41 | the rewritten clip list is as long as the old one (its entries: `Clips.RootedAt`) |
| Clips.InsertRootPath | main.py:34-41 | the array afterwards holds, entry for entry, the old clips with their names rooted, and nothing else changed |
| Clips.RootedAt | main.py:40-41 | entry `i` keeps its start, end and fade and its name becomes root + "/" + old name; the length is kept |
| Clips.RootedNameRecoverable | main.py:41 | the rooted name starts with the root and a '/', and the old name follows them unchanged |
| Clips.TrailingSlashDoubled | main.py:41 | a root that already ends in '/' (the `__main__` block's root does) gives "//" in the name |
| Clips.FilesExist | main.py:19-31 | returns true iff every file exists. Files are probed in order, and the probing stops at the first missing one, which is reported last. |
| Ffmpeg.CutFadeVideo | main.py:53-77 | returns the output name it was given |
| Ffmpeg.CutFadeVideoRoundTrip | main.py:65-75 | the cut command reads back as: input, output, fade-in at `start` for `fade`, fade-out at `end - fade` for `fade`, trim `start` to `end` |
| Ffmpeg.FadeFilter | main.py:65-69 | the `-vf` filter text; its partner `Ffmpeg.FadeFilterRoundTrip` reads it back as the two fades |
| Ffmpeg.CutArgs | main.py:70-75 | the cut's vector has twelve arguments, selects `-vf`, has the output at index 10, and reads back as exactly its input, output, filter and trim fields |
| Ffmpeg.FadeFilterRoundTrip | main.py:65-69 | the filter graph reads back as the two fades, for all integers; nothing is clamped |
| Ffmpeg.OverlappingFadesPassedThrough | main.py:65-69 | when `end - fade < start` the fade-out starts before the fade-in, unvalidated |
| Ffmpeg.CutOutputArgument | main.py:70-75 | a cut has twelve arguments, selects `-vf`, and its argument at index 10 is the output |
| Ffmpeg.CutIsNoMerge | main.py:70-75 | a cut command never reads as a concatenation command |
| Ffmpeg.MergeArgs | main.py:104-108 | the concatenation command reads back as (manifest, result), and never as a cut |
| Ffmpeg.FilterTextRoundTrip | main.py:65-69 | any four fields free of their delimiters read back from the filter text |
| Manifest.Select | main.py:89-90 | an entry is kept iff it is in the listing and ends with the suffix; nothing is added |
| Manifest.SelectAppend | main.py:89-90 | selection respects listing order: selecting from `a + b` is selecting from `a`, then from `b` |
| Manifest.ManifestText | main.py:88-92 | the manifest text of a listing; its partner `Manifest.ManifestRoundTrip` reads it back as the suffixed entries in listing order |
| Manifest.CreateSubVideoFilesTxt | main.py:80-93 | returns `<folder>/list.txt`, and the text written is the manifest of the selected entries, in listing order |
| Manifest.RenderRoundTrip | main.py:91-92 | `file '<name>'` lines, one per name, read back as the names in order |
| Manifest.ManifestRoundTrip | main.py:88-92 | the manifest reads back as exactly the suffixed listing entries, bare and in listing order |
| Manifest.ManifestInClipOrder | main.py:89-92 | when the suffixed entries of the listing are clips 0 to n-1 in order, with other files anywhere before, between or after them, the manifest names clip 0 to n-1 in order |
| Manifest.ClipBlockSelected | main.py:89-90 | a listing holding the intermediate files as one block in clip order, with only unsuffixed files around it, selects exactly clips 0 to n-1 in order |
| Manifest.ListingOrderDecides | main.py:89-90 | a listing with clip 1 before clip 0 gives a manifest with clip 1 first |
| Manifest.StaleIntermediateIncluded | main.py:89-90 | an intermediate file of a clip index the job does not have, still in the folder, is put in the manifest |
| Pipeline.CutEffectRead | main.py:135-137 | the cut of a clip into intermediate file `index` reads back as: the clip's source, that file, fade-in at the clip's start and fade-out at its end less its fade, each for the fade, trim start to end |
| Pipeline.CutEffectsDistinct | main.py:135-137 | no two cuts of a job are the same command |
| Pipeline.CreateDirectory | main.py:44-50 | `create_directory` is a folder-making effect on the given path; its partner `Pipeline.FolderHoldsJobFiles` shows that every file the job writes lies inside that folder |
| Pipeline.FolderHoldsJobFiles | main.py:130-140 | for a job folder not ending in '/', the folder is made first, and the output of every cut (effects 1 to `n`), the manifest, the concatenated `result.mp4` and the DONE marker lie inside it (start with folder + "/") |
| Pipeline.MergeEffects | main.py:102-108 | the two effects of `merge_video_files`, writing `list.txt` and then concatenating; `Pipeline.MergeVideoFiles` shows the run reads the written file into `result.mp4`, and `Pipeline.MergeReadsManifest` what the manifest names |
| Pipeline.AnnotateDone | main.py:111-116 | `annotate_done` is the marker stage; it touches a path that starts with the job folder and ends in `DONE`, and for a folder not ending in '/' it is exactly folder + "/DONE" |
| Pipeline.Plan | main.py:130-140 | an `n`-clip job has `n + 4` effects, the first creating the job folder and the last marking it DONE |
| Pipeline.Attempt | main.py:119-140 | the attempted effects are a prefix of the plan; the run completes iff no effect raises; an incomplete run ends with the effect that raised |
| Pipeline.AttemptStopsAt | main.py:119-140 | a run whose first raising effect is number `j` attempts exactly effects 0 to `j` |
| Pipeline.AbortAt | main.py:119-140 | after a prefix in which nothing raised, a raising next effect ends the run with it |
| Pipeline.GoOn | main.py:119-140 | after a prefix in which nothing raised, a next effect that does not raise extends the prefix |
| Pipeline.Completed | main.py:119-140 | a prefix as long as the plan in which nothing raised is a complete run |
| Pipeline.Perform | main.py:132-140 | one operation: it is appended to the trace and either the run goes on or it ends here |
| Pipeline.MergeVideoFiles | main.py:96-108 | writes the manifest of the listing, then runs one concatenation reading that manifest into `result.mp4` |
| Pipeline.StartProcessing | main.py:119-140 | roots the clip names in place, then performs the plan's effects until one raises: the trace and the completion flag are those of `Attempt` on the plan |
| Pipeline.PlanCutAt | main.py:135-137 | effect `1 + i` is the cut of clip `i` |
| Pipeline.PlanEndAt | main.py:139 | effects `n + 1` and `n + 2` are those of `merge_video_files` |
| Pipeline.CutStageAt | main.py:135-137 | effect `k`, for `1 <= k <= n`, is a cut |
| Pipeline.CutStages | main.py:135-137 | every effect from 1 to `n` is a cut |
| Pipeline.PlanEndStages | main.py:132-140 | the first effect makes the folder, and the last three write the manifest, concatenate and mark DONE |
| Pipeline.StagesFromParts | main.py:132-140 | with the first, cut and last stages in place, every stage is where the fixed order puts it |
| Pipeline.StagesInOrder | main.py:132-140 | the stages run in a fixed order: folder, one cut per clip, manifest, concatenation, marker |
| Pipeline.CutsInIndexOrder | main.py:130-137 | cut `i` reads `root + "/" + name` of clip `i`, with that clip's times, and writes intermediate file `i` |
| Pipeline.CutsWriteDistinctFiles | main.py:135-137 | no two cuts of a run write the same file |
| Pipeline.MergeReadsManifest | main.py:102-108 | the manifest is written to `list.txt` and names the suffixed entries in listing order; the concatenation reads `list.txt` and writes `result.mp4` |
| Pipeline.NoMarkerBeforeEnd | main.py:116-140 | in a plan whose stages are in order, only the last effect touches a file |
| Pipeline.OnlyLastTouches | main.py:116-140 | only the final effect of a job creates a file by touching it |
| Pipeline.MarkerOnlyWhenComplete | main.py:111-140 | DONE is created exactly when every operation before it and the marker itself succeeded |

## Left out

- Reading the job document (`json.load`, main.py:129) is not modelled: the model starts from the parsed `UUID` and clip list. A clip without `start`, `end` or `fade` raises `KeyError` at main.py:137, and a non-numeric `end` or `fade` raises `TypeError` at main.py:68; both happen after the folder is created and the earlier clips are cut, so such a document aborts the run part-way. The typed `Clip` record excludes these documents, so the model does not show that abort.
- Clip times are whole numbers. Python's `format` of a fractional JSON number (such as `2.5`) is not modelled.
- `os.path.isfile`, `os.listdir` and the raising of any operation are inputs (`isFile`, `listing`, `raises`), and no real filesystem is consulted.
- The ffmpeg processes themselves are not modelled: a run is its argument vector. The source ignores the exit status, so a run that fails without raising counts as success, as it does in `main.py`.
- `create_directory` is one folder-making effect. The model leaves out the `os.path.exists` check in front of `os.makedirs`, since creating a folder that already exists changes nothing visible in the model.
- The manifest gets one appended line per entry. The source's two `write` calls (the text, then the newline) produce the same bytes.
- Manifest.ManifestRoundTrip: requires that no selected entry contains a newline, because the source writes names unescaped and such a name would split its line. Its reader is the model's own (`Manifest.ParseManifest`), not ffmpeg's concat parser. A selected name containing `'` reads back unchanged there, but main.py:91 writes it unescaped, and ffmpeg would take that `'` as a quote. The round trip therefore says what the manifest names only for names free of `'`; escaping is not modelled.
- The console lines of `files_exists` are returned as a `Probe` list instead of printed. `start_processing` never calls `files_exists`, so neither does the model.
- The stage of a run is read from its mode flags (`-vf` for a cut, `-f concat` for a concatenation), not from what ffmpeg then does.
- The `__main__` block (main.py:143-145) is not modelled. Its source root ends in '/', a case Clips.TrailingSlashDoubled covers for every such root.
- Clip records are values, not shared dictionaries. Aliasing between entries of `files` is not modelled, since `json.load` never creates it.
