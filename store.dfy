/**
 * The project collection and the request handlers and background job that write to it.
 * Every `$set` update goes through `Set`, which also records it in the ghost `writes`
 * log, so each handler's contract can say exactly which updates it issued.
 */
module Store {
  import opened Wrappers
  import opened Settings
  import opened FileSize
  import opened FilterGraph
  import opened Projects
  import opened Jobs

  /** One issued update: the record it addresses and its field assignments. */
  datatype Write = Write(id: string, patch: Patch)

  /** An uploaded file as the handler sees it: the client's file name, the declared
      content type and size (either may be missing), and the number of bytes written. */
  datatype Upload = Upload(filename: string, contentType: Option<string>,
                           declaredSize: Option<int>, bytes: nat)

  /** The JSON body of a successful upload. */
  datatype UploadReply = UploadReply(message: string, filename: string, size: SizeText,
                                     mediaType: Option<string>, path: string)

  const BaseVideoLimit: int := 100 * 1024 * 1024
  const HologramMediaLimit: int := 50 * 1024 * 1024

  const NotAVideo := HttpError(400, "File must be a video")
  const NotVideoOrImage := HttpError(400, "File must be a video or image")
  const VideoTooLarge := HttpError(400, "Video file too large (max 100MB)")
  const MediaTooLarge := HttpError(400, "Media file too large (max 50MB)")

  predicate HasPrefix(contentType: Option<string>, prefix: string) {
    contentType.Some? && prefix <= contentType.value
  }

  predicate IsVideo(contentType: Option<string>) {
    HasPrefix(contentType, "video/")
  }

  predicate IsVideoOrImage(contentType: Option<string>) {
    HasPrefix(contentType, "video/") || HasPrefix(contentType, "image/")
  }

  /** Only a declared, non-zero size above the cap is refused; a missing size passes. */
  predicate TooLarge(declaredSize: Option<int>, limit: int) {
    declaredSize.Some? && declaredSize.value != 0 && declaredSize.value > limit
  }

  /** The last position of `c` in `s`, or -1. */
  function LastIndexOf(s: string, c: char): (r: int)
    ensures -1 <= r < |s|
    ensures r >= 0 ==> s[r] == c
    ensures forall j :: r < j < |s| ==> s[j] != c
  {
    if s == [] then -1
    else if s[|s| - 1] == c then |s| - 1
    else LastIndexOf(s[..|s| - 1], c)
  }

  /** A position holding `c` with no `c` after it is the last position of `c`. */
  lemma LastIndexIs(s: string, c: char, k: int)
    requires 0 <= k < |s| && s[k] == c
    requires forall j :: k < j < |s| ==> s[j] != c
    ensures LastIndexOf(s, c) == k
  {
  }

  /** The final component of a file name. */
  function BaseName(filename: string): string {
    filename[LastIndexOf(filename, '/') + 1..]
  }

  /** The extension of a file name: from its last dot to the end, provided that dot is
      neither the first nor the last character of the final component. */
  function Suffix(filename: string): string {
    var name := BaseName(filename);
    var i := LastIndexOf(name, '.');
    if 0 < i < |name| - 1 then name[i..] else ""
  }

  /** The final component ends the file name and holds no slash. */
  lemma BaseNameShape(filename: string)
    ensures var name := BaseName(filename);
      && |name| <= |filename| && filename[|filename| - |name|..] == name
      && forall j :: 0 <= j < |name| ==> name[j] != '/'
  {
    var k := LastIndexOf(filename, '/');
    var name := BaseName(filename);
    forall j | 0 <= j < |name|
      ensures name[j] != '/'
    {
      assert name[j] == filename[k + 1 + j];
    }
  }

  /** The extension is the text from the last dot of the final component, exactly when
      that dot is neither the first nor the last character; otherwise it is empty. A
      non-empty extension is a dot followed by at least one character and no further
      dot or slash, and it ends the client's file name. */
  lemma SuffixShape(filename: string)
    ensures var name := BaseName(filename);
      var i := LastIndexOf(name, '.');
      && ((0 < i < |name| - 1) <==> Suffix(filename) != "")
      && (Suffix(filename) != "" ==> Suffix(filename) == name[i..])
    ensures var x := Suffix(filename);
      && (x == "" || (|x| >= 2 && x[0] == '.'
                      && forall j :: 1 <= j < |x| ==> x[j] != '.' && x[j] != '/'))
      && |x| <= |filename| && filename[|filename| - |x|..] == x
  {
    var name := BaseName(filename);
    BaseNameShape(filename);
    var i := LastIndexOf(name, '.');
    if 0 < i < |name| - 1 {
      var x := name[i..];
      assert x == filename[|filename| - |x|..];
      forall j | 1 <= j < |x|
        ensures x[j] != '.' && x[j] != '/'
      {
        assert x[j] == name[i + j];
      }
    }
  }

  /** Extensions of typical upload names. */
  lemma SuffixExamples()
    ensures Suffix("clip.mp4") == ".mp4"
    ensures Suffix("dir/a.tar.gz") == ".gz"
  {
    assert LastIndexOf("clip.mp4", '/') == -1;
    LastIndexIs("clip.mp4", '.', 4);
    LastIndexIs("dir/a.tar.gz", '/', 3);
    assert BaseName("dir/a.tar.gz") == "a.tar.gz";
    LastIndexIs("a.tar.gz", '.', 5);
  }

  /** Names whose last dot is first or last, or that have no dot, get no extension. */
  lemma NoSuffixExamples()
    ensures Suffix(".bashrc") == ""
    ensures Suffix("video.") == ""
    ensures Suffix("noext") == ""
  {
    assert LastIndexOf(".bashrc", '/') == -1;
    LastIndexIs(".bashrc", '.', 0);
    assert LastIndexOf("video.", '/') == -1;
    assert LastIndexOf("video.", '.') == 5;
    assert LastIndexOf("noext", '/') == -1;
    assert LastIndexOf("noext", '.') == -1;
  }

  /** The stored name of an upload: the slot's prefix, the project id and the
      extension of the client's file name. */
  function StoredName(prefix: string, id: string, filename: string): string {
    prefix + id + Suffix(filename)
  }

  class ProjectStore {
    var projects: map<string, Project>
    ghost var writes: seq<Write>
    const uploadsDir: string
    const processedDir: string

    constructor (uploadsDir: string, processedDir: string)
      ensures projects == map[] && writes == []
      ensures this.uploadsDir == uploadsDir && this.processedDir == processedDir
    {
      projects := map[];
      writes := [];
      this.uploadsDir := uploadsDir;
      this.processedDir := processedDir;
    }

    /** One `$set` update; one addressed to a missing id matches nothing. */
    method Set(id: string, patch: Patch)
      modifies this
      ensures projects == Update(old(projects), id, patch)
      ensures writes == old(writes) + [Write(id, patch)]
    {
      if id in projects {
        projects := projects[id := Apply(projects[id], patch)];
      }
      writes := writes + [Write(id, patch)];
    }

    /** Insert a new project under a fresh id. */
    method CreateProject(id: string, name: string) returns (p: Project)
      requires id !in projects
      modifies this
      ensures p == NewProject(id, name)
      ensures projects == old(projects)[id := p] && writes == old(writes)
    {
      p := NewProject(id, name);
      projects := projects[id := p];
    }

    /** Store the base video of a project: 404 for an unknown project, 400 unless the
        content type starts with "video/", 400 when the declared size exceeds 100 MB;
        otherwise only the base-video slot is overwritten, with the bytes written. */
    method UploadBaseVideo(id: string, file: Upload) returns (r: Result<UploadReply, HttpError>)
      modifies this
      ensures id !in old(projects) ==> r == Failure(NotFound)
      ensures id in old(projects) && !IsVideo(file.contentType) ==> r == Failure(NotAVideo)
      ensures id in old(projects) && IsVideo(file.contentType) && TooLarge(file.declaredSize, BaseVideoLimit)
        ==> r == Failure(VideoTooLarge)
      ensures r.Success? <==>
        (id in old(projects) && IsVideo(file.contentType) && !TooLarge(file.declaredSize, BaseVideoLimit))
      ensures r.Failure? ==> projects == old(projects) && writes == old(writes)
      ensures r.Success? ==>
        var name := StoredName("base_", id, file.filename);
        var patch := SetBaseVideo(uploadsDir + "/" + name, file.filename, file.bytes);
        && projects == Update(old(projects), id, patch)
        && writes == old(writes) + [Write(id, patch)]
        && r.value == UploadReply("Base video uploaded successfully", file.filename,
                                  FileSizeText(file.bytes), None, name)
    {
      if id !in projects {
        return Failure(NotFound);
      }
      if !IsVideo(file.contentType) {
        return Failure(NotAVideo);
      }
      if TooLarge(file.declaredSize, BaseVideoLimit) {
        return Failure(VideoTooLarge);
      }
      var name := StoredName("base_", id, file.filename);
      Set(id, SetBaseVideo(uploadsDir + "/" + name, file.filename, file.bytes));
      var size := FormatFileSize(file.bytes);
      r := Success(UploadReply("Base video uploaded successfully", file.filename, size, None, name));
    }

    /** Store the hologram media of a project: as for the base video, but images are
        accepted too, the cap is 50 MB and the content type is recorded. */
    method UploadHologramMedia(id: string, file: Upload) returns (r: Result<UploadReply, HttpError>)
      modifies this
      ensures id !in old(projects) ==> r == Failure(NotFound)
      ensures id in old(projects) && !IsVideoOrImage(file.contentType) ==> r == Failure(NotVideoOrImage)
      ensures id in old(projects) && IsVideoOrImage(file.contentType)
        && TooLarge(file.declaredSize, HologramMediaLimit)
        ==> r == Failure(MediaTooLarge)
      ensures r.Success? <==>
        (id in old(projects) && IsVideoOrImage(file.contentType)
         && !TooLarge(file.declaredSize, HologramMediaLimit))
      ensures r.Failure? ==> projects == old(projects) && writes == old(writes)
      ensures r.Success? ==>
        var name := StoredName("hologram_", id, file.filename);
        var patch := SetHologramMedia(uploadsDir + "/" + name, file.filename, file.bytes,
                                      file.contentType.value);
        && projects == Update(old(projects), id, patch)
        && writes == old(writes) + [Write(id, patch)]
        && r.value == UploadReply("Hologram media uploaded successfully", file.filename,
                                  FileSizeText(file.bytes), file.contentType, name)
    {
      if id !in projects {
        return Failure(NotFound);
      }
      if !IsVideoOrImage(file.contentType) {
        return Failure(NotVideoOrImage);
      }
      if TooLarge(file.declaredSize, HologramMediaLimit) {
        return Failure(MediaTooLarge);
      }
      var name := StoredName("hologram_", id, file.filename);
      Set(id, SetHologramMedia(uploadsDir + "/" + name, file.filename, file.bytes,
                               file.contentType.value));
      var size := FormatFileSize(file.bytes);
      r := Success(UploadReply("Hologram media uploaded successfully", file.filename, size,
                               file.contentType, name));
    }

    /** A processing request: the gate's checks, then the settings are stored and the
        job to run is returned. The status is not touched here; the job sets it. */
    method ProcessProject(id: string, settings: HologramSettings, compositorAvailable: bool)
      returns (r: Result<Job, HttpError>)
      modifies this
      ensures r.Success? <==> ProcessGate(old(projects), id, compositorAvailable).Success?
      ensures r.Failure? ==>
        && r.error == ProcessGate(old(projects), id, compositorAvailable).error
        && projects == old(projects) && writes == old(writes)
      ensures r.Success? ==>
        && projects == Update(old(projects), id, SetSettings(settings))
        && writes == old(writes) + [Write(id, SetSettings(settings))]
        && projects[id].status == old(projects)[id].status
        && r.value == Job(id, old(projects)[id].baseVideoPath.value,
                          old(projects)[id].hologramMediaPath.value, settings)
    {
      var gate := ProcessGate(projects, id, compositorAvailable);
      if gate.Failure? {
        return Failure(gate.error);
      }
      var p := gate.value;
      Set(id, SetSettings(settings));
      r := Success(Job(id, p.baseVideoPath.value, p.hologramMediaPath.value, settings));
    }

    /** The background job, given the outcomes of the probe and the compositor and the
        size of the output file, if one is left. It issues exactly the updates of
        `PlanJob`, launches its command and ends with its outcome. */
    method RunJob(job: Job, probe: ProbeOutcome, compositor: CompositorOutcome,
                  outputFileSize: Option<nat>)
      returns (result: Result<string, string>, command: Option<Command>)
      modifies this
      ensures var run := PlanJob(job, probe, compositor, outputFileSize, processedDir);
        && projects == UpdateAll(old(projects), job.projectId, run.patches)
        && writes == old(writes) + Addressed(job.projectId, run.patches)
        && result == run.result && command == run.command
    {
      ghost var start := projects;
      ghost var startWrites := writes;
      ghost var done;
      result, command, done := TryJob(job, probe, compositor, outputFileSize, start, startWrites);
      if result.Failure? {
        done := Issue(job.projectId, MarkFailed(result.error), start, startWrites, done);
      }
    }

    /** The body of the job: the updates of `Attempt`, stopping at the first failure. */
    method TryJob(job: Job, probe: ProbeOutcome, compositor: CompositorOutcome,
                  outputFileSize: Option<nat>, ghost start: map<string, Project>,
                  ghost startWrites: seq<Write>)
      returns (result: Result<string, string>, command: Option<Command>, ghost done: seq<Patch>)
      requires projects == start && writes == startWrites
      modifies this
      ensures var a := Attempt(job, probe, compositor, outputFileSize, processedDir);
        && done == a.patches && result == a.result && command == a.command
      ensures projects == UpdateAll(start, job.projectId, done)
      ensures writes == startWrites + Addressed(job.projectId, done)
    {
      var id := job.projectId;
      done := [];
      done := Issue(id, StartProcessing, start, startWrites, done);
      done := Issue(id, SetProgress(10.0), start, startWrites, done);
      assert done == Started;

      if probe.ProbeFailed? {
        return Failure(ProbeFailedMessage), None, done;
      }
      var video := FirstVideoStream(probe.streams);
      if video.None? {
        return Failure(NoVideoStreamMessage), None, done;
      }
      ghost var rendered;
      result, command, rendered := RenderJob(job, video.value, compositor, outputFileSize,
                                             start, startWrites, done);
      done := done + rendered;
    }

    /** The job once a video stream was found: the updates of `Render`. */
    method RenderJob(job: Job, video: StreamInfo, compositor: CompositorOutcome,
                     outputFileSize: Option<nat>, ghost start: map<string, Project>,
                     ghost startWrites: seq<Write>, ghost before: seq<Patch>)
      returns (result: Result<string, string>, command: Option<Command>, ghost rendered: seq<Patch>)
      requires projects == UpdateAll(start, job.projectId, before)
      requires writes == startWrites + Addressed(job.projectId, before)
      modifies this
      ensures var r := Render(job, video, compositor, outputFileSize, processedDir);
        && rendered == r.patches && result == r.result && command == r.command
      ensures projects == UpdateAll(start, job.projectId, before + rendered)
      ensures writes == startWrites + Addressed(job.projectId, before + rendered)
    {
      var id := job.projectId;
      var cmd;
      ghost var done;
      cmd, done := PrepareCommand(job, video, start, startWrites, before);
      command := Some(cmd);
      rendered := Rendering;

      if compositor.LaunchFailed? {
        return Failure(compositor.message), command, rendered;
      }
      if compositor.returnCode != 0 {
        return Failure(CompositorFailedPrefix + compositor.stderr), command, rendered;
      }

      done := Issue(id, SetProgress(95.0), start, startWrites, done);
      var outputSize := if outputFileSize.Some? then outputFileSize.value else 0;
      done := Issue(id, MarkCompleted(cmd.outputPath, outputSize), start, startWrites, done);
      rendered := rendered + [SetProgress(95.0), MarkCompleted(cmd.outputPath, outputSize)];
      assert done == before + rendered;
      result := Success(cmd.outputPath);
    }

    /** The geometry, the filter graph and the command, with the milestones between. */
    method PrepareCommand(job: Job, video: StreamInfo, ghost start: map<string, Project>,
                          ghost startWrites: seq<Write>, ghost before: seq<Patch>)
      returns (command: Command, ghost done: seq<Patch>)
      requires projects == UpdateAll(start, job.projectId, before)
      requires writes == startWrites + Addressed(job.projectId, before)
      modifies this
      ensures command == CommandFor(job, video.width, video.height, processedDir)
      ensures done == before + Rendering
      ensures projects == UpdateAll(start, job.projectId, done)
      ensures writes == startWrites + Addressed(job.projectId, done)
    {
      var id := job.projectId;
      done := before;
      done := Issue(id, SetProgress(25.0), start, startWrites, done);
      assert done == before + Rendering[..1];
      var geo := OverlayGeometry(video.width, video.height, job.settings);

      done := Issue(id, SetProgress(40.0), start, startWrites, done);
      assert done == before + Rendering[..2];
      var graph := BuildFilterGraph(geo, job.settings);

      done := Issue(id, SetProgress(60.0), start, startWrites, done);
      assert done == before + Rendering[..3];
      var outputPath := processedDir + "/hologram_" + id + ".mp4";
      command := Command(job.baseVideoPath, job.hologramMediaPath, graph, Output, outputPath);

      done := Issue(id, SetProgress(80.0), start, startWrites, done);
      assert Rendering[..4] == Rendering;
    }

    /** One update of the job: the store and the log hold exactly the updates issued
        since `start`, before and after. */
    method Issue(id: string, patch: Patch, ghost start: map<string, Project>,
                 ghost startWrites: seq<Write>, ghost done: seq<Patch>)
      returns (ghost done': seq<Patch>)
      requires projects == UpdateAll(start, id, done)
      requires writes == startWrites + Addressed(id, done)
      modifies this
      ensures done' == done + [patch]
      ensures projects == UpdateAll(start, id, done')
      ensures writes == startWrites + Addressed(id, done')
    {
      Set(id, patch);
      UpdateAllSnoc(start, id, done, patch);
      AddressedSnoc(id, done, patch);
      done' := done + [patch];
    }
  }

  /** The log entries of updates addressed to one record. */
  function Addressed(id: string, patches: seq<Patch>): (ws: seq<Write>)
    ensures |ws| == |patches|
    ensures forall i :: 0 <= i < |ws| ==> ws[i] == Write(id, patches[i])
  {
    seq(|patches|, i requires 0 <= i < |patches| => Write(id, patches[i]))
  }

  lemma AddressedSnoc(id: string, patches: seq<Patch>, patch: Patch)
    ensures Addressed(id, patches + [patch]) == Addressed(id, patches) + [Write(id, patch)]
  {
  }

  /** An upload overwrites only its own slot: status, progress, settings, output and
      the other slot are kept. */
  lemma UploadTouchesOnlyItsSlot(p: Project, path: string, filename: string, size: int, mediaType: string)
    ensures var q := Apply(p, SetBaseVideo(path, filename, size));
      q == p.(baseVideoPath := Some(path), baseVideoFilename := Some(filename),
              baseVideoSize := Some(size))
      && Given(q.baseVideoPath) == (path != "")
    ensures var q := Apply(p, SetHologramMedia(path, filename, size, mediaType));
      q == p.(hologramMediaPath := Some(path), hologramMediaFilename := Some(filename),
              hologramMediaSize := Some(size), hologramMediaType := Some(mediaType))
  {
  }

  /** Once both uploads have gone through, a project that is not running passes the
      gate whenever the compositor is available. */
  lemma UploadsEnableProcessing(store: map<string, Project>, id: string, base: string,
                                media: string, p: Patch, q: Patch)
    requires id in store && store[id].status != Processing
    requires p.SetBaseVideo? && p.path == base && base != ""
    requires q.SetHologramMedia? && q.path == media && media != ""
    ensures ProcessGate(Update(Update(store, id, p), id, q), id, true).Success?
    ensures ProcessGate(Update(Update(store, id, q), id, p), id, true).Success?
  {
  }
}
