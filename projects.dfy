/**
 * The project record, the field updates the server issues against it, the checks in
 * front of a processing request and the status report derived from a record.
 */
module Projects {
  import opened Wrappers
  import opened Settings
  import opened FileSize

  /** The four values the server ever writes into a record's status. */
  datatype Status = Created | Processing | Completed | Failed

  /** One stored project. `settings == None` is the empty settings dictionary a new
      project starts with; timestamps are not modelled. */
  datatype Project = Project(
    id: string,
    name: string,
    baseVideoPath: Option<string>,
    baseVideoFilename: Option<string>,
    baseVideoSize: Option<int>,
    hologramMediaPath: Option<string>,
    hologramMediaFilename: Option<string>,
    hologramMediaSize: Option<int>,
    hologramMediaType: Option<string>,
    settings: Option<HologramSettings>,
    status: Status,
    outputPath: Option<string>,
    outputSize: Option<int>,
    errorMessage: Option<string>,
    processingProgress: real)

  /** A freshly created project: nothing uploaded, status created, progress 0. */
  function NewProject(id: string, name: string): (p: Project)
    ensures p.id == id && p.name == name
    ensures p.status == Created && p.processingProgress == 0.0
    ensures !Given(p.baseVideoPath) && !Given(p.hologramMediaPath)
    ensures p.outputPath == None && p.outputSize == None && p.errorMessage == None
    ensures p.settings == None
  {
    Project(id, name, None, None, None, None, None, None, None, None,
            Created, None, None, None, 0.0)
  }

  /** Truthiness of an optional string: present and not empty. */
  predicate Given(s: Option<string>) {
    s.Some? && s.value != ""
  }

  /** The field assignments of one `$set` update the server issues. */
  datatype Patch =
    | SetBaseVideo(path: string, filename: string, size: int)
    | SetHologramMedia(path: string, filename: string, size: int, mediaType: string)
    | SetSettings(settings: HologramSettings)
    | StartProcessing
    | SetProgress(progress: real)
    | MarkCompleted(outputPath: string, outputSize: int)
    | MarkFailed(message: string)

  /** The record after one update; every field the update does not name is kept. */
  function Apply(p: Project, patch: Patch): Project {
    match patch
    case SetBaseVideo(path, filename, size) =>
      p.(baseVideoPath := Some(path), baseVideoFilename := Some(filename),
         baseVideoSize := Some(size))
    case SetHologramMedia(path, filename, size, mediaType) =>
      p.(hologramMediaPath := Some(path), hologramMediaFilename := Some(filename),
         hologramMediaSize := Some(size), hologramMediaType := Some(mediaType))
    case SetSettings(s) => p.(settings := Some(s))
    case StartProcessing => p.(status := Processing, processingProgress := 0.0)
    case SetProgress(x) => p.(processingProgress := x)
    case MarkCompleted(path, size) =>
      p.(status := Completed, outputPath := Some(path), outputSize := Some(size),
         processingProgress := 100.0)
    case MarkFailed(msg) =>
      p.(status := Failed, errorMessage := Some(msg), processingProgress := 0.0)
  }

  /** The progress value an update writes, if it writes one. */
  function WrittenProgress(patch: Patch): Option<real> {
    match patch
    case StartProcessing => Some(0.0)
    case SetProgress(x) => Some(x)
    case MarkCompleted(_, _) => Some(100.0)
    case MarkFailed(_) => Some(0.0)
    case _ => None
  }

  /** Every update keeps the record's identity, and the progress afterwards is the one
      the update writes, or the old one when it writes none. */
  lemma ApplyKeepsIdentity(p: Project, patch: Patch)
    ensures Apply(p, patch).id == p.id && Apply(p, patch).name == p.name
    ensures Apply(p, patch).processingProgress
         == (if WrittenProgress(patch).Some? then WrittenProgress(patch).value
             else p.processingProgress)
  {
  }

  /** An update addressed to an id that is not stored matches nothing. */
  function Update(store: map<string, Project>, id: string, patch: Patch): (s: map<string, Project>)
    ensures s.Keys == store.Keys
    ensures forall k :: k in store && k != id ==> s[k] == store[k]
    ensures id in store ==> s[id] == Apply(store[id], patch)
    ensures id !in store ==> s == store
  {
    if id in store then store[id := Apply(store[id], patch)] else store
  }

  /** Successive updates of one record. */
  function ApplyAll(p: Project, patches: seq<Patch>): Project
    decreases |patches|
  {
    if patches == [] then p else ApplyAll(Apply(p, patches[0]), patches[1..])
  }

  function UpdateAll(store: map<string, Project>, id: string, patches: seq<Patch>): map<string, Project>
    decreases |patches|
  {
    if patches == [] then store else UpdateAll(Update(store, id, patches[0]), id, patches[1..])
  }

  /** Issuing the updates one after another touches only that record, and leaves it as
      the updates composed in order make it. */
  lemma {:induction false} UpdateAllIsApplyAll(store: map<string, Project>, id: string, patches: seq<Patch>)
    ensures id in store ==> UpdateAll(store, id, patches) == store[id := ApplyAll(store[id], patches)]
    ensures id !in store ==> UpdateAll(store, id, patches) == store
    decreases |patches|
  {
    if patches != [] {
      UpdateAllIsApplyAll(Update(store, id, patches[0]), id, patches[1..]);
      if id in store {
        assert Update(store, id, patches[0])[id := ApplyAll(Apply(store[id], patches[0]), patches[1..])]
            == store[id := ApplyAll(store[id], patches)];
      }
    }
  }

  /** One more update at the end. */
  lemma {:induction false} UpdateAllSnoc(store: map<string, Project>, id: string, patches: seq<Patch>, last: Patch)
    ensures UpdateAll(store, id, patches + [last]) == Update(UpdateAll(store, id, patches), id, last)
    decreases |patches|
  {
    if patches == [] {
      assert UpdateAll(Update(store, id, last), id, []) == Update(store, id, last);
    } else {
      assert (patches + [last])[0] == patches[0];
      assert (patches + [last])[1..] == patches[1..] + [last];
      UpdateAllSnoc(Update(store, id, patches[0]), id, patches[1..], last);
    }
  }

  /** An HTTP error: status code and detail text. */
  datatype HttpError = HttpError(statusCode: int, detail: string)

  const NotFound := HttpError(404, "Project not found")
  const MediaMissing := HttpError(400, "Both base video and hologram media must be uploaded before processing")
  const AlreadyProcessing := HttpError(400, "Project is already being processed")
  const CompositorUnavailable := HttpError(503, "FFmpeg is not available. Cannot process video.")

  /** The checks of a processing request, in order, given whether the compositor answers
      its version probe. On success the stored record is returned. */
  function ProcessGate(store: map<string, Project>, id: string, compositorAvailable: bool): (r: Result<Project, HttpError>)
    ensures r.Success? <==>
      id in store && Given(store[id].baseVideoPath) && Given(store[id].hologramMediaPath)
      && store[id].status != Processing && compositorAvailable
    ensures r.Success? ==> r.value == store[id]
    ensures r.Failure? ==> r.error.statusCode in {400, 404, 503}
  {
    if id !in store then Failure(NotFound)
    else if !Given(store[id].baseVideoPath) || !Given(store[id].hologramMediaPath) then Failure(MediaMissing)
    else if store[id].status == Processing then Failure(AlreadyProcessing)
    else if !compositorAvailable then Failure(CompositorUnavailable)
    else Success(store[id])
  }

  /** The first failing check decides the answer: a missing project is 404 whatever else
      holds, missing media is reported before a running job, and the compositor is only
      consulted once the record itself is acceptable. */
  lemma GateOrder(store: map<string, Project>, id: string, available: bool)
    ensures id !in store ==> ProcessGate(store, id, available) == Failure(NotFound)
    ensures id in store && !(Given(store[id].baseVideoPath) && Given(store[id].hologramMediaPath))
      ==> ProcessGate(store, id, available) == Failure(MediaMissing)
    ensures id in store && Given(store[id].baseVideoPath) && Given(store[id].hologramMediaPath)
      && store[id].status == Processing
      ==> ProcessGate(store, id, available) == Failure(AlreadyProcessing)
    ensures id in store && ProcessGate(store, id, true).Success? && !available
      ==> ProcessGate(store, id, available) == Failure(CompositorUnavailable)
  {
  }

  /** A completed or failed project may be processed again; only a running one is
      refused. */
  lemma FinishedProjectsMayRerun(store: map<string, Project>, id: string)
    requires id in store && Given(store[id].baseVideoPath) && Given(store[id].hologramMediaPath)
    requires store[id].status in {Created, Completed, Failed}
    ensures ProcessGate(store, id, true).Success?
  {
  }

  /** The output size a completed project reports: absent and zero both read Unknown. */
  datatype SizeReport = Unknown | Shown(size: SizeText)

  /** The status message, with the numbers it prints kept as values:
      "Project created, ready for processing", "Processing... {progress}% complete",
      "Processing completed! Output file size: {size}" and "Processing failed: {reason}". */
  datatype Message =
    | ReadyMessage
    | ProgressMessage(percent: real)
    | CompletedMessage(outputSize: SizeReport)
    | FailedMessage(reason: string)

  function MessageFor(p: Project): (m: Message)
    ensures p.status == Created <==> m == ReadyMessage
    ensures p.status == Processing <==> m == ProgressMessage(p.processingProgress)
    ensures p.status == Completed <==> m.CompletedMessage?
    ensures p.status == Failed <==> m.FailedMessage?
  {
    match p.status
    case Created => ReadyMessage
    case Processing => ProgressMessage(p.processingProgress)
    case Completed =>
      CompletedMessage(if p.outputSize.Some? && p.outputSize.value != 0
                       then Shown(FileSizeText(p.outputSize.value)) else Unknown)
    case Failed =>
      FailedMessage(if Given(p.errorMessage) then p.errorMessage.value else "Unknown error")
  }

  /** The failure reason is the stored error message, or "Unknown error" when none is
      stored; a completed project shows its size exactly when that size is non-zero. */
  lemma MessageDetails(p: Project)
    ensures p.status == Failed && Given(p.errorMessage) ==> MessageFor(p) == FailedMessage(p.errorMessage.value)
    ensures p.status == Failed && !Given(p.errorMessage) ==> MessageFor(p) == FailedMessage("Unknown error")
    ensures p.status == Completed ==>
      (MessageFor(p).outputSize.Shown? <==> p.outputSize.Some? && p.outputSize.value != 0)
    ensures p.status == Completed && p.outputSize.Some? && p.outputSize.value != 0 ==>
      MessageFor(p).outputSize == Shown(FileSizeText(p.outputSize.value))
  {
  }

  /** The status report of one project. */
  datatype ProcessingStatus = ProcessingStatus(
    projectId: string,
    status: Status,
    progress: real,
    message: Message,
    errorMessage: Option<string>)

  function GetProcessingStatus(store: map<string, Project>, id: string): (r: Result<ProcessingStatus, HttpError>)
    ensures id !in store <==> r == Failure(NotFound)
    ensures id in store ==>
      (r.Success? && r.value.projectId == id
       && r.value.status == store[id].status
       && r.value.progress == store[id].processingProgress
       && r.value.message == MessageFor(store[id])
       && r.value.errorMessage == store[id].errorMessage)
  {
    if id !in store then Failure(NotFound)
    else
      var p := store[id];
      Success(ProcessingStatus(id, p.status, p.processingProgress, MessageFor(p), p.errorMessage))
  }
}
