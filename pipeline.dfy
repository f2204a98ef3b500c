/** The job pipeline of `start_processing`: resolve the clip paths, create
    the job folder, cut every clip in index order, build the manifest and
    concatenate, then write the DONE marker. Filesystem and subprocess work
    is recorded as a trace of effects instead of being performed; an effect
    whose operation raises ends the run, as an uncaught exception does. */
module Pipeline {
  import opened Text
  import opened Paths
  import opened Clips
  import opened Ffmpeg
  import opened Manifest

  /** One side effect of the pipeline. */
  datatype Effect =
    | MakeDirs(path: string)           // create_directory: os.makedirs when absent
    | Run(argv: seq<string>)           // subprocess.call; its exit status is ignored
    | Write(path: string, text: string) // list.txt written
    | Touch(path: string)              // open(DONE, 'w')

  // ---------------------------------------------------------------------
  // The effects a job asks for

  /** The cut of clip `index`, written to its intermediate file. */
  function CutEffect(folder: string, index: nat, clip: Clip): Effect
  {
    Run(CutFadeVideo(clip.name, IntermediatePath(folder, index), clip.start, clip.end, clip.fade).argv)
  }

  function CutEffects(folder: string, clips: seq<Clip>): (r: seq<Effect>)
    ensures |r| == |clips|
    ensures forall i :: 0 <= i < |clips| ==> r[i] == CutEffect(folder, i, clips[i])
  {
    seq(|clips|, i requires 0 <= i < |clips| => CutEffect(folder, i, clips[i]))
  }

  /** The cut of clip `c` into intermediate file `index` asks ffmpeg to read
      the clip's source and write that file, fading in at the clip's start
      and out at its end less its fade, each for the fade, and keeping the
      clip's span. Entry `i` of `CutEffects` is this cut for clip `i`. */
  lemma CutEffectRead(folder: string, index: nat, c: Clip)
    ensures CutEffect(folder, index, c).Run?
    ensures ParseCut(CutEffect(folder, index, c).argv)
      == Some(CutRequest(c.name, IntermediatePath(folder, index), Fades(c.start, c.fade, c.end - c.fade, c.fade), c.start, c.end))
  {
    CutFadeVideoRoundTrip(c.name, IntermediatePath(folder, index), c.start, c.end, c.fade);
  }

  /** No two cuts of a job are the same command. */
  lemma CutEffectsDistinct(folder: string, clips: seq<Clip>)
    ensures forall i, j :: 0 <= i < j < |clips| ==> CutEffects(folder, clips)[i] != CutEffects(folder, clips)[j]
  {
    var cuts := CutEffects(folder, clips);
    forall i, j | 0 <= i < j < |clips|
      ensures cuts[i] != cuts[j]
    {
      var ci, cj := clips[i], clips[j];
      CutOutputArgument(ci.name, IntermediatePath(folder, i), ci.start, ci.end, ci.fade);
      CutOutputArgument(cj.name, IntermediatePath(folder, j), cj.start, cj.end, cj.fade);
      if IntermediatePath(folder, i) == IntermediatePath(folder, j) {
        IntermediatePathInjective(folder, i, j);
      }
    }
  }

  /** `merge_video_files`: the manifest written, then the concatenation. */
  function MergeEffects(folder: string, postfix: string, listing: seq<string>): seq<Effect>
  {
    [Write(ListPath(folder), ManifestText(listing, postfix)),
     Run(MergeArgs(ListPath(folder), ResultPath(folder)))]
  }

  /** Every effect of a job whose clips are `clips` (paths already
      resolved), in the order `start_processing` issues them. `listing` is
      what the job folder lists when the manifest is built. */
  function Plan(folder: string, clips: seq<Clip>, listing: seq<string>): (r: seq<Effect>)
    ensures |r| == |clips| + 4
    ensures r[0] == CreateDirectory(folder)
    ensures r[|clips| + 3] == AnnotateDone(folder)
  {
    [MakeDirs(folder)] + CutEffects(folder, clips) + MergeEffects(folder, Postfix, listing)
      + [Touch(DonePath(folder))]
  }

  /** Effect `1 + i` of a plan is the cut of clip `i`. */
  lemma PlanCutAt(folder: string, clips: seq<Clip>, listing: seq<string>, i: nat)
    requires i < |clips|
    ensures 1 + i < |Plan(folder, clips, listing)|
    ensures Plan(folder, clips, listing)[1 + i] == CutEffect(folder, i, clips[i])
  {
    var plan := Plan(folder, clips, listing);
    var cuts := CutEffects(folder, clips);
    assert plan == [MakeDirs(folder)] + cuts + MergeEffects(folder, Postfix, listing) + [Touch(DonePath(folder))];
    assert plan[1 + i] == cuts[i];
  }

  /** Effects `n + 1` and `n + 2` are those of `merge_video_files`. */
  lemma PlanEndAt(folder: string, clips: seq<Clip>, listing: seq<string>)
    ensures var plan := Plan(folder, clips, listing); var n := |clips|; var merge := MergeEffects(folder, Postfix, listing);
      plan[n + 1] == merge[0] && plan[n + 2] == merge[1]
  {
    var plan := Plan(folder, clips, listing);
    var merge := MergeEffects(folder, Postfix, listing);
    assert plan == ([MakeDirs(folder)] + CutEffects(folder, clips)) + merge + [Touch(DonePath(folder))];
  }

  // ---------------------------------------------------------------------
  // Running the effects: the first one that raises ends the run

  /** The effects attempted when `plan` runs and `raises` says which of
      them raise, and whether the run got to the end. */
  function Attempt(plan: seq<Effect>, raises: Effect -> bool): (r: (seq<Effect>, bool))
    ensures |r.0| <= |plan| && r.0 == plan[..|r.0|]
    ensures r.1 <==> forall k :: 0 <= k < |plan| ==> !raises(plan[k])
    ensures r.1 ==> r.0 == plan
    ensures !r.1 ==> r.0 != [] && raises(r.0[|r.0| - 1])
    ensures forall k :: 0 <= k < |r.0| - 1 ==> !raises(r.0[k])
  {
    if plan == [] then ([], true)
    else if raises(plan[0]) then ([plan[0]], false)
    else
      var rest := Attempt(plan[1..], raises);
      ([plan[0]] + rest.0, rest.1)
  }

  /** A run whose first raising effect is `plan[j]` attempts exactly
      `plan[..j + 1]`. */
  lemma {:induction false} AttemptStopsAt(plan: seq<Effect>, raises: Effect -> bool, j: nat)
    requires j < |plan| && raises(plan[j])
    requires forall k :: 0 <= k < j ==> !raises(plan[k])
    ensures Attempt(plan, raises) == (plan[..j + 1], false)
    decreases j
  {
    if j > 0 {
      AttemptStopsAt(plan[1..], raises, j - 1);
      assert [plan[0]] + plan[1..][..j] == plan[..j + 1];
    }
  }

  /** `done` is a prefix of the plan in which no effect raised. */
  predicate Clean(plan: seq<Effect>, raises: Effect -> bool, done: seq<Effect>)
  {
    |done| <= |plan| && done == plan[..|done|] && forall k :: 0 <= k < |done| ==> !raises(done[k])
  }

  /** After `done`, the next effect `e` raises: the run ends with `e`. */
  lemma AbortAt(plan: seq<Effect>, raises: Effect -> bool, done: seq<Effect>, e: Effect)
    requires Clean(plan, raises, done) && |done| < |plan| && e == plan[|done|]
    requires raises(e)
    ensures Attempt(plan, raises) == (done + [e], false)
  {
    forall k | 0 <= k < |done|
      ensures !raises(plan[k])
    {
      assert plan[k] == done[k];
    }
    AttemptStopsAt(plan, raises, |done|);
    assert plan[..|done| + 1] == done + [e];
  }

  /** After `done`, the next effect `e` does not raise: the run goes on. */
  lemma GoOn(plan: seq<Effect>, raises: Effect -> bool, done: seq<Effect>, e: Effect)
    requires Clean(plan, raises, done) && |done| < |plan| && e == plan[|done|]
    requires !raises(e)
    ensures Clean(plan, raises, done + [e])
  {
    assert plan[..|done| + 1] == done + [e];
  }

  /** Every effect ran without raising: the run is complete. */
  lemma Completed(plan: seq<Effect>, raises: Effect -> bool, done: seq<Effect>)
    requires Clean(plan, raises, done) && |done| == |plan|
    ensures Attempt(plan, raises) == (done, true)
  {
    assert done == plan;
  }

  /** Carries out `e`, the next effect of the plan after `done`: either it
      raises, and the run ends with it, or the run goes on. */
  method Perform(ghost plan: seq<Effect>, raises: Effect -> bool, done: seq<Effect>, e: Effect)
    returns (trace: seq<Effect>, ok: bool)
    requires Clean(plan, raises, done) && |done| < |plan| && e == plan[|done|]
    ensures trace == done + [e]
    ensures ok <==> !raises(e)
    ensures ok ==> Clean(plan, raises, trace)
    ensures !ok ==> Attempt(plan, raises) == (trace, false)
  {
    trace := done + [e];
    ok := !raises(e);
    if ok {
      GoOn(plan, raises, done, e);
    } else {
      AbortAt(plan, raises, done, e);
    }
  }

  // ---------------------------------------------------------------------
  // The operations of main.py

  /** `create_directory(path)`. */
  function CreateDirectory(path: string): (e: Effect)
    ensures StageOf(e) == Folder && e.path == path
  {
    MakeDirs(path)
  }

  /** `merge_video_files(postfix, root_folder)`, given what the folder
      lists: the manifest's path and text, and the concatenation command
      that reads it. */
  method MergeVideoFiles(postfix: string, folder: string, listing: seq<string>) returns (effects: seq<Effect>)
    ensures effects == MergeEffects(folder, postfix, listing)
    ensures ParseMerge(effects[1].argv) == Some(MergeRequest(effects[0].path, ResultPath(folder)))
  {
    var listFile, text := CreateSubVideoFilesTxt(postfix, folder, listing);
    var resultPath := Join(folder, "result.mp4");
    effects := [Write(listFile, text), Run(MergeArgs(listFile, resultPath))];
  }

  /** `annotate_done(order_output_folder)`. */
  function AnnotateDone(folder: string): (e: Effect)
    ensures StageOf(e) == Marker
    ensures StartsWith(e.path, folder) && EndsWith(e.path, "DONE")
    ensures folder != [] && !EndsWith(folder, "/") ==> e.path == folder + "/" + "DONE"
  {
    assert !StartsWith("DONE", "/") by {
      assert "DONE"[..1][0] == 'D';
    }
    Touch(DonePath(folder))
  }

  /** In a job folder given as a plain name (not ending in '/'), the
      folder is created first, and every file the job writes afterwards,
      the cut outputs, the manifest, the concatenated result and the
      marker, lies inside it. */
  lemma FolderHoldsJobFiles(folder: string, clips: seq<Clip>, listing: seq<string>)
    requires folder != [] && !EndsWith(folder, "/")
    ensures var plan := Plan(folder, clips, listing); var n := |clips|;
      && plan[0] == MakeDirs(folder)
      && plan[n + 1].Write? && StartsWith(plan[n + 1].path, folder + "/")
      && plan[n + 2].Run? && |plan[n + 2].argv| == 10 && StartsWith(plan[n + 2].argv[8], folder + "/")
      && plan[n + 3].Touch? && StartsWith(plan[n + 3].path, folder + "/")
    ensures forall k :: 1 <= k <= |clips| ==>
      && Plan(folder, clips, listing)[k].Run? && |Plan(folder, clips, listing)[k].argv| == 12
      && StartsWith(Plan(folder, clips, listing)[k].argv[10], folder + "/")
  {
    var plan := Plan(folder, clips, listing);
    var n := |clips|;
    PlanEndAt(folder, clips, listing);
    assert StartsWith(ListPath(folder), folder + "/") by {
      assert !StartsWith("list.txt", "/") by {
        assert "list.txt"[..1][0] == 'l';
      }
      assert (folder + "/" + "list.txt")[..|folder| + 1] == folder + "/";
    }
    assert StartsWith(ResultPath(folder), folder + "/") by {
      assert !StartsWith("result.mp4", "/") by {
        assert "result.mp4"[..1][0] == 'r';
      }
      assert (folder + "/" + "result.mp4")[..|folder| + 1] == folder + "/";
    }
    assert StartsWith(DonePath(folder), folder + "/") by {
      assert (folder + "/" + "DONE")[..|folder| + 1] == folder + "/";
    }
    forall k | 1 <= k <= |clips|
      ensures plan[k].Run? && |plan[k].argv| == 12 && StartsWith(plan[k].argv[10], folder + "/")
    {
      var i := k - 1;
      var c := clips[i];
      var p := IntermediatePath(folder, i);
      PlanCutAt(folder, clips, listing, i);
      CutOutputArgument(c.name, p, c.start, c.end, c.fade);
      assert (folder + "/" + IntermediateName(i))[..|folder| + 1] == folder + "/";
    }
  }

  /** `start_processing` on a parsed job document: `uuid` and `files` are
      the document's `UUID` and `files`, `sourceFiles` the configured
      source root, `listing` what the job folder lists when the manifest is
      built, and `raises` which operations raise. */
  method StartProcessing(uuid: string, files: array<Clip>, sourceFiles: string, listing: seq<string>,
                         raises: Effect -> bool)
    returns (trace: seq<Effect>, completed: bool)
    modifies files
    ensures files[..] == Rooted(old(files[..]), sourceFiles)
    ensures (trace, completed) == Attempt(Plan(uuid, files[..], listing), raises)
  {
    InsertRootPath(files, sourceFiles);
    ghost var clips := files[..];
    ghost var plan := Plan(uuid, clips, listing);
    var folder := uuid;
    trace, completed := Perform(plan, raises, [], CreateDirectory(folder));
    if !completed {
      return;
    }
    for index := 0 to files.Length
      invariant |trace| == 1 + index && Clean(plan, raises, trace)
      invariant files[..] == clips
    {
      var file := files[index];
      var cut := CutFadeVideo(file.name, IntermediatePath(folder, index), file.start, file.end, file.fade);
      PlanCutAt(uuid, clips, listing, index);
      trace, completed := Perform(plan, raises, trace, Run(cut.argv));
      if !completed {
        return;
      }
    }
    var merge := MergeVideoFiles(Postfix, folder, listing);
    PlanEndAt(uuid, clips, listing);
    trace, completed := Perform(plan, raises, trace, merge[0]);
    if !completed {
      return;
    }
    trace, completed := Perform(plan, raises, trace, merge[1]);
    if !completed {
      return;
    }
    trace, completed := Perform(plan, raises, trace, AnnotateDone(folder));
    if !completed {
      return;
    }
    Completed(plan, raises, trace);
  }

  // ---------------------------------------------------------------------
  // Ordering

  datatype Stage = Folder | CutStage | ManifestStage | MergeStage | Marker | Other

  /** What an effect is, read from the effect itself; an ffmpeg run by the
      mode its flags select (a video filter, or the concat demuxer). */
  function StageOf(e: Effect): Stage
  {
    match e
    case MakeDirs(_) => Folder
    case Write(_, _) => ManifestStage
    case Touch(_) => Marker
    case Run(argv) =>
      if |argv| == 12 && argv[3] == "-vf" then CutStage
      else if |argv| == 10 && argv[1] == "-f" && argv[2] == "concat" then MergeStage
      else Other
  }

  /** The stage of the `k`-th effect of an `n`-clip job. */
  function ExpectedStage(n: nat, k: nat): Stage
  {
    if k == 0 then Folder
    else if k <= n then CutStage
    else if k == n + 1 then ManifestStage
    else if k == n + 2 then MergeStage
    else Marker
  }

  /** Effect `k`, for `1 <= k <= n`, is a cut. */
  lemma CutStageAt(folder: string, clips: seq<Clip>, listing: seq<string>, k: nat)
    requires 1 <= k <= |clips|
    ensures k < |Plan(folder, clips, listing)|
    ensures StageOf(Plan(folder, clips, listing)[k]) == CutStage
  {
    var i := k - 1;
    var c := clips[i];
    assert k < |Plan(folder, clips, listing)| && Plan(folder, clips, listing)[k] == CutEffect(folder, i, c) by {
      PlanCutAt(folder, clips, listing, i);
    }
    CutOutputArgument(c.name, IntermediatePath(folder, i), c.start, c.end, c.fade);
  }

  /** The stages of the four effects around the cuts. */
  lemma PlanEndStages(folder: string, clips: seq<Clip>, listing: seq<string>)
    ensures var plan := Plan(folder, clips, listing); var n := |clips|;
      && |plan| == n + 4
      && StageOf(plan[0]) == Folder && StageOf(plan[n + 1]) == ManifestStage
      && StageOf(plan[n + 2]) == MergeStage && StageOf(plan[n + 3]) == Marker
  {
    PlanEndAt(folder, clips, listing);
    assert StageOf(Run(MergeArgs(ListPath(folder), ResultPath(folder)))) == MergeStage;
  }

  /** The job's stages run in a fixed order: the folder, one cut per clip
      in index order, the manifest, one concatenation, and the marker last. */
  lemma StagesInOrder(folder: string, clips: seq<Clip>, listing: seq<string>)
    ensures |Plan(folder, clips, listing)| == |clips| + 4
    ensures forall k :: 0 <= k < |clips| + 4 ==> StageOf(Plan(folder, clips, listing)[k]) == ExpectedStage(|clips|, k)
  {
    var plan := Plan(folder, clips, listing);
    var n := |clips|;
    assert && |plan| == n + 4
           && StageOf(plan[0]) == Folder && StageOf(plan[n + 1]) == ManifestStage
           && StageOf(plan[n + 2]) == MergeStage && StageOf(plan[n + 3]) == Marker by {
      PlanEndStages(folder, clips, listing);
    }
    assert forall k :: 1 <= k <= n ==> StageOf(plan[k]) == CutStage by {
      CutStages(folder, clips, listing);
    }
    StagesFromParts(plan, n);
  }

  /** Effects 1 to n are cuts. */
  lemma CutStages(folder: string, clips: seq<Clip>, listing: seq<string>)
    ensures var plan := Plan(folder, clips, listing);
      |plan| == |clips| + 4 && forall k :: 1 <= k <= |clips| ==> StageOf(plan[k]) == CutStage
  {
    var plan := Plan(folder, clips, listing);
    forall k | 1 <= k <= |clips|
      ensures StageOf(plan[k]) == CutStage
    {
      CutStageAt(folder, clips, listing, k);
    }
  }

  /** A sequence of `n + 4` effects whose first, cut and last stages are in
      place has every stage where ExpectedStage puts it. */
  lemma StagesFromParts(plan: seq<Effect>, n: nat)
    requires |plan| == n + 4
    requires StageOf(plan[0]) == Folder && StageOf(plan[n + 1]) == ManifestStage
    requires StageOf(plan[n + 2]) == MergeStage && StageOf(plan[n + 3]) == Marker
    requires forall k :: 1 <= k <= n ==> StageOf(plan[k]) == CutStage
    ensures forall k :: 0 <= k < n + 4 ==> StageOf(plan[k]) == ExpectedStage(n, k)
  {
  }

  /** The `i`-th cut of the run is `cut_fade_video` on clip `i`, its
      source resolved to root + "/" + name, written to intermediate file `i`
      (what that command asks of ffmpeg is CutFadeVideoRoundTrip). */
  lemma CutsInIndexOrder(folder: string, clips: seq<Clip>, root: string, listing: seq<string>, i: nat)
    requires i < |clips|
    ensures var plan := Plan(folder, Rooted(clips, root), listing); var c := clips[i];
      && 1 + i < |plan|
      && plan[1 + i] == Run(CutFadeVideo(root + "/" + c.name, IntermediatePath(folder, i), c.start, c.end, c.fade).argv)
  {
    RootedAt(clips, root, i);
    PlanCutAt(folder, Rooted(clips, root), listing, i);
  }


  /** No two cuts of a run write the same intermediate file. */
  lemma CutsWriteDistinctFiles(folder: string, clips: seq<Clip>, listing: seq<string>, i: nat, j: nat)
    requires i < j < |clips|
    ensures var plan := Plan(folder, clips, listing);
      && 1 + j < |plan| && plan[1 + i].Run? && plan[1 + j].Run?
      && |plan[1 + i].argv| == 12 && |plan[1 + j].argv| == 12
      && plan[1 + i].argv[10] != plan[1 + j].argv[10]
  {
    var ci, cj := clips[i], clips[j];
    PlanCutAt(folder, clips, listing, i);
    PlanCutAt(folder, clips, listing, j);
    CutOutputArgument(ci.name, IntermediatePath(folder, i), ci.start, ci.end, ci.fade);
    CutOutputArgument(cj.name, IntermediatePath(folder, j), cj.start, cj.end, cj.fade);
    if IntermediatePath(folder, i) == IntermediatePath(folder, j) {
      IntermediatePathInjective(folder, i, j);
    }
  }

  /** `e` writes the manifest of `folder`, and the manifest names `entries`. */
  predicate WritesManifest(e: Effect, folder: string, entries: seq<string>)
  {
    e.Write? && e.path == ListPath(folder) && ParseManifest(e.text) == Some(entries)
  }

  /** `e` concatenates what the manifest of `folder` names into its result. */
  predicate MergesManifest(e: Effect, folder: string)
  {
    e.Run? && ParseMerge(e.argv) == Some(MergeRequest(ListPath(folder), ResultPath(folder)))
  }

  /** The concatenation reads the manifest just written and writes
      `result.mp4`; the manifest lists the suffixed entries of the listing,
      in listing order. */
  lemma MergeReadsManifest(folder: string, clips: seq<Clip>, listing: seq<string>)
    requires forall e :: e in listing && EndsWith(e, Postfix) ==> '\n' !in e
    ensures var plan := Plan(folder, clips, listing); var n := |clips|;
      && |plan| == n + 4
      && WritesManifest(plan[n + 1], folder, Select(listing, Postfix))
      && MergesManifest(plan[n + 2], folder)
  {
    PlanEndAt(folder, clips, listing);
    ManifestRoundTrip(listing, Postfix);
  }

  /** Only the last effect of a plan touches a file. */
  lemma OnlyLastTouches(folder: string, clips: seq<Clip>, listing: seq<string>)
    ensures var plan := Plan(folder, clips, listing);
      forall k :: 0 <= k < |plan| - 1 ==> !plan[k].Touch?
  {
    var plan := Plan(folder, clips, listing);
    assert |plan| == |clips| + 4 && forall k :: 0 <= k < |clips| + 4 ==> StageOf(plan[k]) == ExpectedStage(|clips|, k) by {
      StagesInOrder(folder, clips, listing);
    }
    NoMarkerBeforeEnd(plan, |clips|);
  }

  lemma NoMarkerBeforeEnd(plan: seq<Effect>, n: nat)
    requires |plan| == n + 4
    requires forall k :: 0 <= k < n + 4 ==> StageOf(plan[k]) == ExpectedStage(n, k)
    ensures forall k :: 0 <= k < |plan| - 1 ==> !plan[k].Touch?
  {
    forall k | 0 <= k < |plan| - 1
      ensures !plan[k].Touch?
    {
      assert StageOf(plan[k]) == ExpectedStage(n, k);
    }
  }

  /** The DONE marker is created exactly when every operation of the run
      succeeded; a run that raises anywhere before leaves no marker. */
  lemma MarkerOnlyWhenComplete(folder: string, clips: seq<Clip>, listing: seq<string>, raises: Effect -> bool)
    ensures var run := Attempt(Plan(folder, clips, listing), raises);
      (Touch(DonePath(folder)) in run.0 && !raises(Touch(DonePath(folder)))) <==> run.1
  {
    var plan := Plan(folder, clips, listing);
    PlanEndAt(folder, clips, listing);
    OnlyLastTouches(folder, clips, listing);
    var run := Attempt(plan, raises);
    var done := Touch(DonePath(folder));
    if done in run.0 && !raises(done) {
      var k :| 0 <= k < |run.0| && run.0[k] == done;
      assert plan[k] == done;
      assert k == |plan| - 1;
      assert run.0 == plan;
    }
    if run.1 {
      assert plan[|plan| - 1] == done;
    }
  }
}
