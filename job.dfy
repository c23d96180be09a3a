/**
 * The background job that renders a hologram video, as a plan of the record updates it
 * issues. The stream probe, the compositor run and the size of the file it leaves are
 * inputs: the job only reacts to their outcomes.
 */
module Jobs {
  import opened Wrappers
  import opened Settings
  import opened FilterGraph
  import opened Projects

  /** What a processing request hands to the background job. */
  datatype Job = Job(projectId: string, baseVideoPath: string, hologramMediaPath: string,
                     settings: HologramSettings)

  /** One stream of the probe's report. */
  datatype StreamInfo = StreamInfo(codecType: string, width: int, height: int)

  /** The probe either fails (no report or an empty one) or lists the streams. */
  datatype ProbeOutcome = ProbeFailed | Probed(streams: seq<StreamInfo>)

  /** The compositor either exits with a code and its error output, or cannot be started. */
  datatype CompositorOutcome = Exited(returnCode: int, stderr: string) | LaunchFailed(message: string)

  /** The compositor invocation: both inputs, the filter graph, the label mapped to the
      video output, and the output file. Audio copying and encoder flags are fixed. */
  datatype Command = Command(baseVideoPath: string, hologramMediaPath: string,
                             filterGraph: seq<Stage>, mapLabel: Label, outputPath: string)

  /** The updates a run issues, the command it launches if it gets that far, and its
      outcome: the output path, or the message of the exception it raises. */
  datatype JobRun = JobRun(patches: seq<Patch>, command: Option<Command>, result: Result<string, string>)

  const ProbeFailedMessage := "Could not get base video information"
  const NoVideoStreamMessage := "No video stream found in base video"
  const CompositorFailedPrefix := "Video processing failed: "

  /** The first stream whose codec type is "video". */
  function FirstVideoStream(streams: seq<StreamInfo>): (r: Option<StreamInfo>)
    ensures r.None? <==> forall i :: 0 <= i < |streams| ==> streams[i].codecType != "video"
    ensures r.Some? ==> r.value.codecType == "video"
    ensures r.Some? ==>
      (exists i :: 0 <= i < |streams| && streams[i] == r.value &&
        forall j :: 0 <= j < i ==> streams[j].codecType != "video")
  {
    if streams == [] then None
    else if streams[0].codecType == "video" then Some(streams[0])
    else
      var r := FirstVideoStream(streams[1..]);
      if r.Some? then
        ghost var i :| 0 <= i < |streams[1..]| && streams[1..][i] == r.value
          && r.value.codecType == "video"
          && forall j :: 0 <= j < i ==> streams[1..][j].codecType != "video";
        assert streams[i + 1] == r.value;
        r
      else r
  }

  function OutputPath(processedDir: string, id: string): string {
    processedDir + "/hologram_" + id + ".mp4"
  }

  /** The command for a base video of the given dimensions. */
  function CommandFor(job: Job, baseWidth: int, baseHeight: int, processedDir: string): Command {
    Command(job.baseVideoPath, job.hologramMediaPath,
            Graph(OverlayGeometry(baseWidth, baseHeight, job.settings), job.settings),
            Output, OutputPath(processedDir, job.projectId))
  }

  /** The milestones written before the probe's answer is looked at. */
  const Started: seq<Patch> := [StartProcessing, SetProgress(10.0)]

  /** The milestones written between the probe and the compositor run. */
  const Rendering: seq<Patch> :=
    [SetProgress(25.0), SetProgress(40.0), SetProgress(60.0), SetProgress(80.0)]

  /** The milestones written before the compositor starts. */
  const Launched: seq<Patch> := Started + Rendering

  /** The part of the job after a video stream was found: the geometry, the graph and
      the command, then the compositor run and, when it succeeds, the completed state. */
  function Render(job: Job, video: StreamInfo, compositor: CompositorOutcome,
                  outputFileSize: Option<nat>, processedDir: string): JobRun
  {
    var cmd := CommandFor(job, video.width, video.height, processedDir);
    match compositor
    case LaunchFailed(msg) => JobRun(Rendering, Some(cmd), Failure(msg))
    case Exited(code, stderr) =>
      if code != 0 then
        JobRun(Rendering, Some(cmd), Failure(CompositorFailedPrefix + stderr))
      else
        var size := if outputFileSize.Some? then outputFileSize.value else 0;
        JobRun(Rendering + [SetProgress(95.0), MarkCompleted(cmd.outputPath, size)],
               Some(cmd), Success(cmd.outputPath))
  }

  /** The body of the job up to the point where it completes or raises: the updates
      issued so far, the command if it was built, and the output path or the message
      of the exception. */
  function Attempt(job: Job, probe: ProbeOutcome, compositor: CompositorOutcome,
                   outputFileSize: Option<nat>, processedDir: string): JobRun
  {
    if probe.ProbeFailed? then
      JobRun(Started, None, Failure(ProbeFailedMessage))
    else
      var video := FirstVideoStream(probe.streams);
      if video.None? then
        JobRun(Started, None, Failure(NoVideoStreamMessage))
      else
        var r := Render(job, video.value, compositor, outputFileSize, processedDir);
        JobRun(Started + r.patches, r.command, r.result)
  }

  /** A run, given the outcomes of the probe and the compositor and the size of the
      output file (None when no file is left): the body, and when it raises, the failed
      state written with the exception's message, which is raised again. */
  function PlanJob(job: Job, probe: ProbeOutcome, compositor: CompositorOutcome,
                   outputFileSize: Option<nat>, processedDir: string): JobRun
  {
    var a := Attempt(job, probe, compositor, outputFileSize, processedDir);
    if a.result.Failure? then JobRun(a.patches + [MarkFailed(a.result.error)], a.command, a.result)
    else a
  }

  /** The outcomes under which a run completes. */
  predicate Succeeds(probe: ProbeOutcome, compositor: CompositorOutcome) {
    probe.Probed? && FirstVideoStream(probe.streams).Some?
    && compositor.Exited? && compositor.returnCode == 0
  }

  /** The progress values a sequence of updates writes, in order. */
  function ProgressTrace(patches: seq<Patch>): seq<real>
    decreases |patches|
  {
    if patches == [] then []
    else
      var rest := ProgressTrace(patches[1..]);
      if WrittenProgress(patches[0]).Some? then [WrittenProgress(patches[0]).value] + rest else rest
  }

  predicate NonDecreasing(xs: seq<real>) {
    forall i, j :: 0 <= i < j < |xs| ==> xs[i] <= xs[j]
  }

  lemma {:induction false} ProgressTraceAppend(a: seq<Patch>, b: seq<Patch>)
    ensures ProgressTrace(a + b) == ProgressTrace(a) + ProgressTrace(b)
    decreases |a|
  {
    if a == [] {
      assert a + b == b;
    } else {
      assert (a + b)[0] == a[0];
      assert (a + b)[1..] == a[1..] + b;
      ProgressTraceAppend(a[1..], b);
    }
  }

  lemma {:induction false} ApplyAllAppend(p: Project, a: seq<Patch>, b: seq<Patch>)
    ensures ApplyAll(p, a + b) == ApplyAll(ApplyAll(p, a), b)
    decreases |a|
  {
    if a == [] {
      assert a + b == b;
    } else {
      assert (a + b)[0] == a[0];
      assert (a + b)[1..] == a[1..] + b;
      ApplyAllAppend(Apply(p, a[0]), a[1..], b);
    }
  }

  lemma ApplyAllPair(p: Project, q: Patch, r: Patch)
    ensures ApplyAll(p, [q, r]) == Apply(Apply(p, q), r)
  {
    assert [q, r][1..] == [r];
    ApplyAllSingle(Apply(p, q), r);
  }

  lemma ApplyAllSingle(p: Project, q: Patch)
    ensures ApplyAll(p, [q]) == Apply(p, q)
  {
    assert ApplyAll(Apply(p, q), []) == Apply(p, q);
  }

  /** The record after the milestones before the compositor: processing at 80%. */
  lemma AfterLaunch(p: Project)
    ensures ApplyAll(p, Launched) == p.(status := Processing, processingProgress := 80.0)
    ensures ProgressTrace(Launched) == [0.0, 10.0, 25.0, 40.0, 60.0, 80.0]
  {
    var a := [StartProcessing, SetProgress(10.0)];
    var b := [SetProgress(25.0), SetProgress(40.0)];
    var c := [SetProgress(60.0), SetProgress(80.0)];
    assert Launched == a + b + c;
    ApplyAllAppend(p, a + b, c);
    ApplyAllAppend(p, a, b);
    ApplyAllPair(p, a[0], a[1]);
    ApplyAllPair(ApplyAll(p, a), b[0], b[1]);
    ApplyAllPair(ApplyAll(p, a + b), c[0], c[1]);
    ProgressTraceAppend(a + b, c);
    ProgressTraceAppend(a, b);
    PairTrace(a[0], a[1]);
    PairTrace(b[0], b[1]);
    PairTrace(c[0], c[1]);
  }

  lemma PairTrace(q: Patch, r: Patch)
    requires WrittenProgress(q).Some? && WrittenProgress(r).Some?
    ensures ProgressTrace([q, r]) == [WrittenProgress(q).value, WrittenProgress(r).value]
  {
    assert [q, r][1..] == [r];
    SingleTrace(r);
  }

  lemma SingleTrace(q: Patch)
    requires WrittenProgress(q).Some?
    ensures ProgressTrace([q]) == [WrittenProgress(q).value]
  {
    assert [q][1..] == [];
  }

  /** A run that completes writes progress 0, 10, 25, 40, 60, 80, 95, 100, never going
      back, and leaves the record completed at 100% with this run's output path and the
      output file's size (0 when no file is left). Every other field, the error message
      of an earlier failure included, is kept. */
  lemma SuccessfulRun(job: Job, probe: ProbeOutcome, compositor: CompositorOutcome,
                      outputFileSize: Option<nat>, processedDir: string, p: Project)
    requires Succeeds(probe, compositor)
    ensures var run := PlanJob(job, probe, compositor, outputFileSize, processedDir);
      && ProgressTrace(run.patches) == [0.0, 10.0, 25.0, 40.0, 60.0, 80.0, 95.0, 100.0]
      && NonDecreasing(ProgressTrace(run.patches))
      && run.result == Success(OutputPath(processedDir, job.projectId))
      && ApplyAll(p, run.patches)
         == p.(status := Completed, processingProgress := 100.0,
               outputPath := Some(OutputPath(processedDir, job.projectId)),
               outputSize := Some(if outputFileSize.Some? then outputFileSize.value else 0))
  {
    var size := if outputFileSize.Some? then outputFileSize.value else 0;
    var path := OutputPath(processedDir, job.projectId);
    assert PlanJob(job, probe, compositor, outputFileSize, processedDir).patches
        == Launched + [SetProgress(95.0), MarkCompleted(path, size)];
    Completes(p, path, size);
    MilestonesIncrease();
  }

  /** The two updates after the compositor exits successfully. */
  lemma Completes(p: Project, path: string, size: int)
    ensures var patches := Launched + [SetProgress(95.0), MarkCompleted(path, size)];
      && ApplyAll(p, patches)
         == p.(status := Completed, processingProgress := 100.0,
               outputPath := Some(path), outputSize := Some(size))
      && ProgressTrace(patches) == [0.0, 10.0, 25.0, 40.0, 60.0, 80.0, 95.0, 100.0]
  {
    var tail := [SetProgress(95.0), MarkCompleted(path, size)];
    AfterLaunch(p);
    ApplyAllAppend(p, Launched, tail);
    ApplyAllPair(ApplyAll(p, Launched), tail[0], tail[1]);
    ProgressTraceAppend(Launched, tail);
    PairTrace(tail[0], tail[1]);
  }

  lemma MilestonesIncrease()
    ensures NonDecreasing([0.0, 10.0, 25.0, 40.0, 60.0, 80.0, 95.0, 100.0])
  {
    var t := [0.0, 10.0, 25.0, 40.0, 60.0, 80.0, 95.0, 100.0];
    forall i, j | 0 <= i < j < |t|
      ensures t[i] <= t[j]
    {
    }
  }

  /** A run that fails — the probe fails, the base video has no video stream, the
      compositor cannot start or exits non-zero — leaves the record failed at 0% with the
      exception's message, never writes the completed state or this run's output path
      (an output path from an earlier run stays), and every progress value it wrote
      before the last is at most 80 and non-decreasing. */
  lemma FailedRun(job: Job, probe: ProbeOutcome, compositor: CompositorOutcome,
                  outputFileSize: Option<nat>, processedDir: string, p: Project)
    requires !Succeeds(probe, compositor)
    ensures var run := PlanJob(job, probe, compositor, outputFileSize, processedDir);
      run.result.Failure? && FailureShape(p, run.patches, run.result.error)
  {
    var run := PlanJob(job, probe, compositor, outputFileSize, processedDir);
    if probe.ProbeFailed? || FirstVideoStream(probe.streams).None? {
      assert run.patches == Started + [MarkFailed(run.result.error)];
      FailsAfterStart(p, run.result.error);
    } else {
      assert run.patches == Launched + [MarkFailed(run.result.error)];
      FailsAfterLaunch(p, run.result.error);
    }
  }

  /** What FailedRun states, for the updates of one failed run. */
  predicate FailureShape(p: Project, patches: seq<Patch>, msg: string) {
    var t := ProgressTrace(patches);
    && ApplyAll(p, patches) == p.(status := Failed, processingProgress := 0.0, errorMessage := Some(msg))
    && (forall i :: 0 <= i < |patches| ==> !patches[i].MarkCompleted?)
    && |t| >= 3 && t[|t| - 1] == 0.0
    && (forall i :: 0 <= i < |t| - 1 ==> t[i] <= 80.0)
    && NonDecreasing(t[..|t| - 1])
  }

  /** The failure written right after the 10% milestone. */
  lemma FailsAfterStart(p: Project, msg: string)
    ensures FailureShape(p, Started + [MarkFailed(msg)], msg)
  {
    var front := Started;
    ApplyAllAppend(p, front, [MarkFailed(msg)]);
    ApplyAllPair(p, front[0], front[1]);
    ApplyAllSingle(ApplyAll(p, front), MarkFailed(msg));
    ProgressTraceAppend(front, [MarkFailed(msg)]);
    PairTrace(front[0], front[1]);
    SingleTrace(MarkFailed(msg));
    var t := ProgressTrace(Started + [MarkFailed(msg)]);
    assert t == [0.0, 10.0, 0.0];
    assert t[..|t| - 1] == [0.0, 10.0];
  }

  /** The failure written after the 80% milestone. */
  lemma FailsAfterLaunch(p: Project, msg: string)
    ensures FailureShape(p, Launched + [MarkFailed(msg)], msg)
  {
    var patches := Launched + [MarkFailed(msg)];
    AfterLaunch(p);
    ApplyAllAppend(p, Launched, [MarkFailed(msg)]);
    ApplyAllSingle(ApplyAll(p, Launched), MarkFailed(msg));
    ProgressTraceAppend(Launched, [MarkFailed(msg)]);
    SingleTrace(MarkFailed(msg));
    var t := ProgressTrace(patches);
    var u := [0.0, 10.0, 25.0, 40.0, 60.0, 80.0];
    assert t == u + [0.0];
    assert t[..|t| - 1] == u;
    forall i, j | 0 <= i < j < |u|
      ensures u[i] <= u[j]
    {
    }
    forall i | 0 <= i < |patches|
      ensures !patches[i].MarkCompleted?
    {
    }
  }

  /** The message a failed run stores, case by case. */
  lemma FailureMessages(job: Job, probe: ProbeOutcome, compositor: CompositorOutcome,
                        outputFileSize: Option<nat>, processedDir: string)
    ensures var run := PlanJob(job, probe, compositor, outputFileSize, processedDir);
      && (probe.ProbeFailed? ==> run.result == Failure(ProbeFailedMessage) && run.command == None)
      && (probe.Probed? && FirstVideoStream(probe.streams).None? ==>
            run.result == Failure(NoVideoStreamMessage) && run.command == None)
      && (probe.Probed? && FirstVideoStream(probe.streams).Some? ==>
            run.command.Some?
            && (compositor.LaunchFailed? ==> run.result == Failure(compositor.message))
            && (compositor.Exited? && compositor.returnCode != 0 ==>
                  run.result == Failure(CompositorFailedPrefix + compositor.stderr)))
  {
  }

  /** The command is only launched once a video stream was found; its graph is built from
      that stream's dimensions and the job's settings, is well formed (it consumes both
      inputs and leaves only the output label), has its stages in pipeline order, and
      the label it maps to the output is the one the graph's last stage produces. */
  lemma CommandIsSound(job: Job, probe: ProbeOutcome, compositor: CompositorOutcome,
                       outputFileSize: Option<nat>, processedDir: string)
    ensures var run := PlanJob(job, probe, compositor, outputFileSize, processedDir);
      run.command.Some? ==>
        var c := run.command.value;
        && probe.Probed? && FirstVideoStream(probe.streams).Some?
        && c == CommandFor(job, FirstVideoStream(probe.streams).value.width,
                           FirstVideoStream(probe.streams).value.height, processedDir)
        && WellFormed(c.filterGraph)
        && Kinds(c.filterGraph) == Selected(PipelineOrder, job.settings)
        && c.filterGraph[|c.filterGraph| - 1].outputs == [c.mapLabel]
        && c.mapLabel.Name() == "output"
        && c.outputPath == OutputPath(processedDir, job.projectId)
  {
    var run := PlanJob(job, probe, compositor, outputFileSize, processedDir);
    if run.command.Some? {
      var v := FirstVideoStream(probe.streams).value;
      var geo := OverlayGeometry(v.width, v.height, job.settings);
      GraphIsWellFormed(geo, job.settings);
      StageOrderIsFixed(geo, job.settings);
      FinalOverlay(geo, job.settings);
    }
  }

  /** What the status endpoint reports once a run has finished: the completed message
      with the output size (Unknown when it is 0), or the failed message with the
      exception's text (Unknown error when that text is empty). */
  lemma StatusAfterRun(store: map<string, Project>, job: Job, probe: ProbeOutcome,
                       compositor: CompositorOutcome, outputFileSize: Option<nat>, processedDir: string)
    requires job.projectId in store
    ensures var run := PlanJob(job, probe, compositor, outputFileSize, processedDir);
      var after := UpdateAll(store, job.projectId, run.patches);
      var size := if outputFileSize.Some? then outputFileSize.value else 0;
      && GetProcessingStatus(after, job.projectId).Success?
      && (Succeeds(probe, compositor) ==>
            GetProcessingStatus(after, job.projectId).value.message
            == CompletedMessage(if size != 0 then Shown(FileSize.FileSizeText(size)) else Unknown))
      && (!Succeeds(probe, compositor) ==>
            GetProcessingStatus(after, job.projectId).value.message
            == FailedMessage(if run.result.error != "" then run.result.error else "Unknown error"))
  {
    var run := PlanJob(job, probe, compositor, outputFileSize, processedDir);
    UpdateAllIsApplyAll(store, job.projectId, run.patches);
    if Succeeds(probe, compositor) {
      SuccessfulRun(job, probe, compositor, outputFileSize, processedDir, store[job.projectId]);
    } else {
      FailedRun(job, probe, compositor, outputFileSize, processedDir, store[job.projectId]);
    }
  }
}
