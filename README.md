# Hologram compositor backend, modelled in Dafny

The backend keeps a collection of projects. Each project receives two uploads: a base video and a piece of hologram media (a video or an image). A processing request checks that the project is ready. It stores the chosen hologram settings and starts a background job. The job probes the base video and computes where the hologram overlay goes. It builds a filter graph for the compositor (scale, optional blue tint, transparency, optional glow, optional scanlines, optional flicker, final overlay) and runs the compositor. Along the way it writes progress milestones into the project record and ends with a completed or a failed record. A status request derives a human-readable message from the record. That message uses a human-readable rendering of file sizes.

Files and modules:

- `wrappers.dfy` (`Wrappers`): `Option` and `Result`.
- `settings.dfy` (`Settings`): the settings value, its defaults, and Python's `int()` on a float (truncation toward zero) with its bounds.
- `file_size.dfy` (`FileSize`): the file-size loop as a method, proved against the specification function `FileSizeText`.
- `filter_graph.dfy` (`FilterGraph`): the parts of the filter graph.
  - Overlay geometry, and the stages as datatypes with labels as an enumeration.
  - `BuildFilterGraph`, which appends stages and moves the current label as `process_hologram_video` does, proved equal to the specification `Graph`.
  - Lemmas about `Graph`: stage order, stage count, the label chain, that no pad is left dangling, the numeric parameters, and that the overlay lies inside the frame.
- `projects.dfy` (`Projects`): the project record.
  - Each `$set` update as a `Patch` with its effect `Apply`, and the store as a map with `Update`.
  - The processing-request gate `ProcessGate`, and the status report `GetProcessingStatus`.
- `job.dfy` (`Jobs`): the background job as a plan of updates (`PlanJob`), given the probe's and the compositor's outcomes, with lemmas for the success path and the failure path.
- `store.dfy` (`Store`): the class `ProjectStore`.
  - It holds the mutable map of projects and a ghost log of every update issued.
  - Its methods are the handlers (create, the two uploads, process) and the job runner `RunJob`.
  - Each handler's new state and log are stated exactly. `RunJob` issues exactly `PlanJob`'s updates.

External programs are inputs to the model and are never called:

- the compositor's version probe is a boolean;
- the stream probe is a `ProbeOutcome`;
- the compositor run is a `CompositorOutcome`;
- the size of the output file on disk is an `Option<nat>`;
- the uploaded bytes are a count.

The model follows the code in these points:

- Zero or tiny overlay dimensions are not rejected, and the settings are not clamped (`TinySizeIsNotRejected`).
- The glow radius is computed with `int()`, not with rounding.
- A successful run does not clear an earlier `error_message` (`SuccessfulRun`).
- A failed run does not clear an `output_path` left by an earlier successful run (`FailedRun`).
- The status becomes `processing` only inside the job. The processing request itself writes only the settings (`ProcessProject`).

## Model

| member | source | states |
|---|---|---|
| Settings.TruncBounds | backend/server.py:173-177 | `int()` of a float moves toward zero by less than one. It is non-negative for non-negative input and non-positive for negative input. |
| Settings.TruncIsFloorOnNonNegative | backend/server.py:173-177 | On the non-negative values the settings are meant to hold, `int()` is the floor. |
| FileSize.FormatFileSize | backend/server.py:119-128 | The divide-by-1024 loop yields exactly `FileSizeText(size)`: "0 B" for 0, otherwise the amount `size / 1024^k` and the unit index `k`. |
| FileSize.UnitIsLargestReached | backend/server.py:123-127 | The unit index is at most 3 (never past GB). A positive size reaches its unit. No larger unit up to GB is reached. |
| FileSize.AmountInRange | backend/server.py:125-128 | A positive size reads as an amount of at least 1. The amount is below 1024 when the size is under 1024 GB. From 1024 GB on, the unit stays GB and the amount is 1024 or more. |
| FileSize.ExampleMegabytes | backend/server.py:119-128 | 1,536,000 bytes is 1.46484375 MB. |
| FilterGraph.BuildFilterGraph | backend/server.py:182-220 | The list of stages built step by step equals `Graph`. It is well formed. Its stage kinds are the pipeline order that the settings select. |
| FilterGraph.GraphIsWellFormed | backend/server.py:185-220 | Run over the pads `[0:v]` and `[1:v]`, every stage finds its inputs open. Afterwards exactly `[output]` is left open. |
| FilterGraph.StageOrderIsFixed | backend/server.py:182-220 | The stage kinds are, in order: scale, tint if `blue_tint`, transparency, split/boxblur/overlay if `glow_intensity > 0`, drawgrid if `scanlines`, flicker if `flicker_intensity > 0`, final overlay. |
| FilterGraph.StageCount | backend/server.py:182-220 | There are 3 + tint + 3·glow + scanlines + flicker stages. |
| FilterGraph.MinimalGraph | backend/server.py:182-220 | With every effect off, the graph is exactly scale, transparency and the final overlay. |
| FilterGraph.FlowAppend | backend/server.py:182-220 | Running a concatenation of stages is running the first part, then the second. |
| FilterGraph.EffectsChain | backend/server.py:185-217 | The first stage reads `[1:v]`. Every later effect stage reads the label the previous stage produced. The last effect produces the current label. |
| FilterGraph.GlowOverlayReadsBothBranches | backend/server.py:198-204 | The glow overlay reads `[glow][main]`, the outputs of the blur and of the split just before it. |
| FilterGraph.FinalOverlay | backend/server.py:219-220 | The last stage reads `[0:v]` and the last effect label, overlays at (x, y) and writes `[output]`. No earlier stage writes `[output]`. |
| FilterGraph.EffectParameters | backend/server.py:185-220 | Each stage carries the parameters the code gives it. The glow radius is `max(2, int(glow·10))` ≥ 2. The scanline spacing is `max(2, h // 100)` ≥ 2. Flicker alpha is `1 − 0.3·flicker` < 1. Transparency passes through unchanged. The tint constants are fixed. |
| FilterGraph.OverlayInsideFrame | backend/server.py:172-177 | For size and position in [0, 1], the overlay is `0 ≤ w ≤ bw`, `0 ≤ h ≤ bh`, `0 ≤ x ≤ bw − w` and `0 ≤ y ≤ bh − h`. |
| FilterGraph.FullSizeFillsFrame | backend/server.py:172-177 | Size 1 at position (0, 0) covers the base frame exactly. |
| FilterGraph.Example640x480 | backend/server.py:172-220 | 640×480 at size 0.5 and position (1, 0), with effects off, gives 320×240 at (320, 0) and the three-stage graph. |
| FilterGraph.TinySizeIsNotRejected | backend/server.py:172-185 | A size that truncates to zero pixels still produces a graph, starting with a 0×0 scale. |
| Projects.NewProject | backend/server.py:42-59 | A new project has status created, progress 0, no uploads, no output, no error and empty settings. |
| Projects.ApplyKeepsIdentity | backend/server.py:130-141 | An update never changes a record's id or name. Its progress afterwards is the value the update writes, otherwise the old one. |
| Projects.UpdateAllIsApplyAll | backend/server.py:143-286 | Updates issued one after another against an id leave every other record alone. The addressed record becomes the composition of the updates. An id that is not stored matches nothing. |
| Projects.ProcessGate | backend/server.py:430-449 | A request is accepted exactly when the project exists, both paths are present and non-empty, it is not processing, and the compositor is available. The accepted record is returned. Every refusal is a 400, 404 or 503. |
| Projects.GateOrder | backend/server.py:430-449 | The checks run in order. A missing project is 404 whatever else holds. Missing media is 400 before a running job is. A running job is 400 before compositor availability is consulted. An unavailable compositor is 503. |
| Projects.FinishedProjectsMayRerun | backend/server.py:443-444 | Projects that are created, completed or failed, with both uploads, pass the gate. Only a processing project is refused. |
| Projects.MessageFor | backend/server.py:481-492 | Each status has its message: ready for created, the progress for processing, the completed message for completed, the failed message for failed. |
| Projects.MessageDetails | backend/server.py:486-490 | The failure reason is the stored error, or "Unknown error" when it is missing or empty. A completed project shows a size exactly when the size is present and non-zero, and the size it shows is `FileSizeText` of that size. |
| Projects.GetProcessingStatus | backend/server.py:472-500 | 404 exactly for an unknown id. Otherwise it reports the record's status, progress, error message and derived message. |
| Jobs.FirstVideoStream | backend/server.py:162-165 | It returns the first stream whose codec type is "video". It returns None exactly when there is none. |
| Jobs.SuccessfulRun | backend/server.py:147-268 | A successful run writes progress 0, 10, 25, 40, 60, 80, 95, 100, never decreasing. It ends completed at 100 with this run's output path and size (0 when no file is left). All other fields are kept, including an earlier error message. |
| Jobs.FailedRun | backend/server.py:145-285 | A failed run ends failed at 0 with the exception's message. It never writes the completed state or this run's output path, so an earlier output path stays. Its earlier progress values are at most 80 and never decrease. |
| Jobs.FailureMessages | backend/server.py:158-285 | A probe failure stores "Could not get base video information". A missing video stream stores "No video stream found in base video". Neither launches a command. A compositor failure stores "Video processing failed: " plus its error output, or the launch error. |
| Jobs.CommandIsSound | backend/server.py:162-237 | A command is built only once a video stream was found. Its graph comes from that stream's size and the job's settings. The graph is well formed and in pipeline order. It maps `[output]` (the label named `output`), the last stage's label, and writes `hologram_<id>.mp4` in the output directory. |
| Jobs.StatusAfterRun | backend/server.py:257-285 | After a run, the status report gives the completed message with the file size (Unknown for 0), or the failed message with the exception text (Unknown error when empty). |
| Store.SuffixShape | backend/server.py:344-345 | The extension is non-empty exactly when the last dot of the final path component is neither its first nor its last character. It is then the text from that dot to the end: a dot, then at least one character, with no further dot or slash, ending the client's file name. |
| Store.SuffixExamples | backend/server.py:344-345 | `clip.mp4` gives `.mp4` and `dir/a.tar.gz` gives `.gz`. |
| Store.NoSuffixExamples | backend/server.py:391-392 | `.bashrc`, `video.` and `noext` give no extension. |
| Store.ProjectStore.Set | backend/server.py:130-141 | One `$set`: the store becomes `Update(old, id, patch)` and the log gains that one write. |
| Store.ProjectStore.CreateProject | backend/server.py:307-312 | It inserts `NewProject(id, name)` under a fresh id and issues no update. |
| Store.ProjectStore.UploadBaseVideo | backend/server.py:328-373 | 404 for an unknown project. 400 for a content type that does not start with "video/". 400 when the declared size exceeds 100 MB. A refusal changes nothing. Otherwise only the base-video slot is set, to `uploads/base_<id><ext>` with the bytes written. The reply carries the file name, the size text and the stored name. |
| Store.ProjectStore.UploadHologramMedia | backend/server.py:375-422 | The same for hologram media. "video/" or "image/" is accepted, the cap is 50 MB, and the content type is recorded as the media type and returned. |
| Store.ProjectStore.ProcessProject | backend/server.py:424-470 | It answers with the gate's error and changes nothing, or stores the settings as its only update. The status is left as it was. It returns the job with the recorded paths and the settings. |
| Store.ProjectStore.RunJob | backend/server.py:143-286 | The store and the log receive exactly `PlanJob`'s updates. It launches `PlanJob`'s command and ends with its outcome. |
| Store.ProjectStore.TryJob | backend/server.py:145-165 | The body of the job up to the probe checks, then the rendering phase. It issues `Attempt`'s updates and returns what `Attempt` does. |
| Store.ProjectStore.RenderJob | backend/server.py:170-268 | After a video stream is found, it issues `Render`'s updates and returns its command and outcome. |
| Store.ProjectStore.PrepareCommand | backend/server.py:170-237 | The milestones 25, 40, 60, 80. The command is built from the overlay geometry and the filter graph. |
| Store.UploadTouchesOnlyItsSlot | backend/server.py:356-366 | An upload overwrites only its own slot. Status, progress, settings, output and the other slot are kept. |
| Store.UploadsEnableProcessing | backend/server.py:403-413 | After both uploads, in either order, a project that is not processing passes the gate when the compositor is available. |

## Left out

- HTTP routing, CORS, response models and the download endpoint (backend/server.py:502-531). These are transport plumbing. The download's status checks are not modelled.
- `get_system_status`, `get_projects` and `get_project` (backend/server.py:290-326). They only read the store or call the version probe. `get_projects` would also need the creation-time sort.
- MongoDB and the `created_at`/`updated_at` timestamps. The store is a map from id to record, and each `$set` is a `Patch`.
- The external programs (backend/server.py:89-117, 244-245). `check_ffmpeg`, `get_video_info` and the compositor run become the inputs described above. Parsing the probe's JSON is not modelled, and neither are its failure modes (a missing `streams` key, a non-integer width).
- Chunked file writes and `stat()` (backend/server.py:349-353, 396-400). The stored size is the count of uploaded bytes.
- The text of numbers. `:.1f` formatting of sizes and progress, float formatting inside filter strings, the stage strings themselves and the `;` join are not modelled. The model keeps the numbers and the labels as values. IEEE rounding is not modelled; floats are exact reals.
- Concurrency. Background scheduling and the race between two processing requests (backend/server.py:443, 458-464) are not modelled; calls are sequential.
- `rotation_angle`. It is accepted by the settings but never used by the graph.
- The `"Status: ..."` branch of the status message (backend/server.py:491-492). It is unreachable, because only the four modelled statuses are ever written.
- Store.ProjectStore.CreateProject: requires a fresh id, standing in for uuid4's uniqueness. A duplicate insert is not modelled.
- Store.Suffix: follows the suffix rule for the final path component. The last dot counts only if it is neither the first nor the last character. Path normalisation (repeated or trailing slashes) is not modelled.
- Logging, and the exception re-raised by the job after the failed state is written. The re-raise is the job's `Failure` result.
- The test scripts. They drive a live server over HTTP.
