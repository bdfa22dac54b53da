# paper-frame, modelled in Dafny

paper-frame drives a slow-refresh e-paper picture frame. It has two
generations of code. Both are modelled here:

- The current `paperframe/` package builds a catalog of images and videos
  from a media path and shows one file per step. It saves a resumable
  playlist cursor after every step, so a restart picks up where it left off.
- The older `src/` tree plays a single video frame by frame and saves a
  `Job` record after every frame. `src/` also holds the command-line
  validators.

The file system, the image loader, ffmpeg probing and frame extraction, the
clock and the random draws are inputs of the model. The display and the save
file are observed through `Effects.Io`. It keeps a ghost trace of prepare,
display, sleep, wait, save and clear events, and the content of the save
file.

Modules, one per source file, plus four shared helpers:

| module | file | models |
|---|---|---|
| `PlaylistModels` | models.dfy | `PlaylistDefinition` and `Playlist` of paperframe/models.py; the generator `iter` becomes the `Poll`/`Step`/`Exhaust` methods of class `Playlist` |
| `Playback` | playback.dfy | paperframe/playlist.py: `load_media`, `__load_save`, `init_playlist`, `__play_media_files`, `start_playback` |
| `VideoInfoCache` | video_info.dfy | `get_video_info` of paperframe/videos.py and its cache `VIDEO_INFO_LIST` |
| `MediaTypes` | media_types.dfy | paperframe/util.py `is_video`, `is_image`, `is_valid_media`, and `Path.suffix` |
| `LegacyUtil` | legacy_util.dfy | src/util.py and the `Mode` enumeration that src/job.py looks names up in |
| `LegacyJob` | legacy_job.dfy | src/job.py: `Job`, `toJson`, `save`, `build_job` |
| `LegacyProgress` | legacy_progress.dfy | src/progresslog.py: `ProgressLog.toJson`, `load` |
| `LegacyVideo` | legacy_video.dfy | src/videos.py: `display_video` and `get_video_info` |
| `Effects`, `JsonValues`, `ListOrder`, `Wrappers` | effects.dfy, json_values.dfy, list_order.dfy, wrappers.dfy | display/save trace; JSON values and decode errors; shuffle and sort; `Option`/`Result` |

Where the code raises an exception, the model returns an error value instead:
`Err(...)` for the decoders, `Raised(...)` for the playback loops. The
infinite loops (`while True` with `loop`, and the video loop with `loop`) take
a budget of passes or turns. The budget stands for the external interrupt
that ends them.

### Two points about the code's behaviour

- A playlist video shows the same frame on every step: `__play_media_files`
  reads `playlist.frame` and never advances it
  (paperframe/playlist.py:96-98). One step plays one file.
- The src/videos.py loop covers frames `0..frame_count` inclusive: it runs
  while `frame <= frame_count` (src/videos.py:81) and wraps, with `loop`,
  only once the frame has passed `frame_count` (src/videos.py:97-100).

## Model

| member | source | states |
|---|---|---|
| Effects.Delay | paperframe/playlist.py:105-106 | the pause `max(wait - elapsed, 0)` is never negative; step plus pause last at least `wait`; the pause is 0 or tops the step up to exactly `wait`, so no deficit carries over; and it is at most `wait` when `wait >= 0` |
| Effects.PresentMembers | paperframe/playlist.py:88-102 | an image is among those shown from a list of step results exactly when some step obtained it, and there are no more of them than steps |
| Effects.Io.WriteSave | paperframe/playlist.py:20-22 | `__create_save` overwrites the save file with the record and logs one save event |
| Effects.Io.RemoveSave | paperframe/playlist.py:25-26 | `unlink` fails and changes nothing when there is no save file; otherwise the save file is gone and one clear event is logged |
| JsonValues.StringArrayRoundTrip | paperframe/models.py:85 | a list of file names written as a JSON array reads back as the same list |
| MediaTypes.Suffix | paperframe/util.py:9 | `Path.suffix` of the last path component; no contract of its own, its shape is stated by `MediaTypes.SuffixShape` and `MediaTypes.SuffixOfChild` |
| MediaTypes.IsVideo | paperframe/util.py:8-9 | `is_video`: a regular file whose suffix is in the video list; no contract of its own, see `MediaTypes.ImageAndVideoDisjoint` and `MediaTypes.DirectoryIsNeverMedia` |
| MediaTypes.IsImage | paperframe/util.py:12-13 | `is_image`: a regular file whose suffix is in the image list; no contract of its own, see `MediaTypes.LowerCaseExtensionIsImage` and `MediaTypes.SuffixMatchIsCaseSensitive` |
| MediaTypes.IsValidMedia | paperframe/util.py:16-17 | `is_valid_media`: image or video; no contract of its own, see `MediaTypes.DirectoryIsNeverMedia`, `MediaTypes.UpperCaseExtensionIsNotMedia` and `MediaTypes.LeadingDotIsNoSuffix` |
| MediaTypes.SuffixShape | paperframe/util.py:9 | `Path.suffix` is empty, or a dot followed by at least one character and no further dot, taken from the end of the path's last component |
| MediaTypes.SuffixOfChild | paperframe/util.py:13 | the suffix of `dir/b.e` is `.e` when `b` is not empty and `e` is a non-empty extension without a dot |
| MediaTypes.ImageAndVideoDisjoint | paperframe/constants.py:4-5 | no path is both an image and a video, since the two suffix lists share no entry |
| MediaTypes.DirectoryIsNeverMedia | paperframe/util.py:8-17 | a directory is never valid media, whatever its name, because both tests require a regular file |
| MediaTypes.UpperCaseExtensionIsNotMedia | paperframe/util.py:16-17 | a file named `base.JPG` is neither an image nor a video |
| MediaTypes.LowerCaseExtensionIsImage | paperframe/util.py:12-13 | a file named `base.jpg` is an image |
| MediaTypes.SuffixMatchIsCaseSensitive | paperframe/util.py:12-13 | membership is exact: `.JPG` is not recognised where `.jpg` is |
| MediaTypes.LeadingDotIsNoSuffix | paperframe/util.py:13 | a file called `.png` has no suffix, so it is not media |
| ListOrder.ShufflePermutes | paperframe/playlist.py:50-51 | `random.shuffle` leaves the same multiset of entries, whatever the draws |
| ListOrder.SortBy | paperframe/playlist.py:52-53 | `sorted(..., key=...)` returns a list that is in key order and is a permutation of its input |
| ListOrder.TextLessEqTotal | paperframe/playlist.py:53 | Python's string `<=` relates every pair of names one way or the other |
| ListOrder.TextLessEqTransitive | paperframe/playlist.py:53 | string `<=` is transitive |
| ListOrder.TextLessEqAntisymmetric | paperframe/playlist.py:53 | names each `<=` the other are equal |
| VideoInfoCache.InfoOf | paperframe/videos.py:41-45 | `frame_count` is the stream's `nb_frames` when present and the duration-times-fps estimate otherwise |
| VideoInfoCache.VideoCache.constructor | paperframe/videos.py:24 | the cache starts empty and nothing has been probed |
| VideoInfoCache.VideoCache.GetVideoInfo | paperframe/videos.py:27-48 | a cached path is answered from the cache without probing; otherwise the path is probed once; a failed probe returns `None` and leaves the cache as it was; a successful one is stored under the path and returned; existing entries are never overwritten or removed; and a cache that agrees with the probe keeps agreeing and answers as a fresh probe would |
| PlaylistModels.NewDefinition | paperframe/models.py:7-11 | the defaults: wait 30 seconds, no random, no loop, no resume, clear the display |
| PlaylistModels.DefinitionDefaults | paperframe/models.py:20-34 | a playlist file naming only `media_path` yields that path with every default |
| PlaylistModels.DefinitionFromJson | paperframe/models.py:20-28 | `PlaylistDefinition(**args)` fails on any key that is not a parameter name and on a missing `media_path` |
| PlaylistModels.DefinitionToJson | paperframe/models.py:46-47 | the record is a dict; its keys and round trip are stated by `PlaylistModels.DefinitionJsonKeys`, `PlaylistModels.DefinitionRoundTrip` and `PlaylistModels.DefinitionJsonInjective` |
| PlaylistModels.DefinitionJsonKeys | paperframe/models.py:46-47 | `to_json` has exactly the six attribute names as keys |
| PlaylistModels.DefinitionRoundTrip | paperframe/models.py:46-47 | `PlaylistDefinition(**d.to_json())` rebuilds `d` exactly |
| PlaylistModels.DefinitionJsonInjective | paperframe/playlist.py:76 | two definitions have equal `to_json` dicts if and only if all six fields are equal |
| PlaylistModels.PlaylistFromJson | paperframe/models.py:56-69 | `Playlist(**data)` fails on an unknown key and on a missing `config`, and succeeds only with a `config` dict that rebuilds the definition it returns |
| PlaylistModels.PlaylistToJson | paperframe/models.py:82-88 | the record is a dict; its keys and round trip are stated by `PlaylistModels.PlaylistJsonKeys` and `PlaylistModels.PlaylistRoundTrip` |
| PlaylistModels.PlaylistJsonKeys | paperframe/models.py:82-88 | the save record has exactly the keys `config`, `files`, `index`, `frame` |
| PlaylistModels.PlaylistRoundTrip | paperframe/models.py:82-88 | `Playlist(**p.to_json())` reproduces the files, index, frame and all six config fields |
| PlaylistModels.Exhausted | paperframe/models.py:94-97 | the state after the generator's loop; no contract of its own, its properties are `PlaylistModels.ExhaustedKeepsPlaylist`, and `PlaylistModels.Playlist.Exhaust` is proved against it |
| PlaylistModels.ExhaustedKeepsPlaylist | paperframe/models.py:94-97 | after exhaustion the config and frame are kept and the files are a permutation; with `loop` the index is 0; the order changes only with `loop` and `random` both set; without `loop` nothing changes |
| PlaylistModels.Playlist.constructor | paperframe/models.py:56-69 | a playlist holds exactly the config, files, index and frame it was built with |
| PlaylistModels.Playlist.Length | paperframe/models.py:79-80 | `len(playlist)` is the number of files |
| PlaylistModels.Playlist.InProgress | paperframe/models.py:99-100 | `in_progress()` holds if and only if the index is below the number of files |
| PlaylistModels.Playlist.ToJson | paperframe/models.py:82-88 | the record is a dict from which `Playlist(**data)` rebuilds this exact state |
| PlaylistModels.Playlist.Poll | paperframe/models.py:91-92 | while the index is in range the generator yields `files[index]` without moving; otherwise it yields nothing |
| PlaylistModels.Playlist.Step | paperframe/models.py:93 | resuming the generator raises the index by exactly one and changes nothing else |
| PlaylistModels.Playlist.Exhaust | paperframe/models.py:94-97 | the code after the generator's loop moves the playlist to the state `Exhausted` describes |
| Playback.MediaEntries | paperframe/playlist.py:49 | the comprehension keeps only valid media, each as often as the listing has it |
| Playback.Found | paperframe/playlist.py:45-49 | the list found before ordering; no contract of its own, stated by `Playback.LoadMediaCatalog` and `Playback.MediaEntries` |
| Playback.LoadMedia | paperframe/playlist.py:44-56 | without `random_order` the catalog is sorted by file name |
| Playback.LoadMediaPermutes | paperframe/playlist.py:50-53 | shuffling or sorting neither adds nor drops an entry of the found list |
| Playback.LoadMediaCatalog | paperframe/playlist.py:45-49 | a file is the whole catalog; a path that is neither file nor directory gives an empty one; a directory gives exactly its valid media, with their multiplicities |
| Playback.LoadMediaNoDuplicates | paperframe/playlist.py:48-49 | from a listing without repeats, each valid child appears exactly once and nothing else appears |
| Playback.LoadSave | paperframe/playlist.py:29-41 | no save file, or a `config` that is None or not a dict, means no save rather than an error; a record that is not a dict or lacks `config` fails; otherwise the result is exactly `Playlist(**data)`: its error when it raises, and the playlist it builds |
| Playback.SaveRoundTrip | paperframe/playlist.py:20-41 | what a step saves is loaded back unchanged |
| Playback.FreshPlaylist | paperframe/playlist.py:79-82 | the playlist at index 0, frame 0 over the `load_media` catalog; no contract of its own, used by `Playback.InitPlaylist` and `Playback.ChangedDefinitionStartsFresh` |
| Playback.InitPlaylist | paperframe/playlist.py:70-82 | the saved playlist is returned exactly when a save loads, its config asks to resume and it equals the current definition; otherwise a fresh playlist at index 0, frame 0 with the `load_media` catalog; a save that fails to load fails |
| Playback.ResumeRestoresSavedPosition | paperframe/playlist.py:73-78 | a playlist saved under the same resuming definition resumes with its files, index and frame |
| Playback.ChangedDefinitionStartsFresh | paperframe/playlist.py:76-82 | a save whose definition differs from the current one is ignored |
| Playback.StepImage | paperframe/playlist.py:88-99 | a step obtains nothing for a file that is not media, the loader's image for an image, and for a video the frame extraction of a successful probe at the playlist's frame |
| Playback.StepNeverClears | paperframe/playlist.py:85-106 | a step never clears the save |
| Playback.StepSaves | paperframe/playlist.py:104 | every step saves its record exactly once, whether or not an image was obtained |
| Playback.StepShows | paperframe/playlist.py:100-103 | a step displays the image it obtained, and nothing when it obtained none |
| Playback.PassImagesAt | paperframe/playlist.py:86-99 | step j of a pass obtains what `StepImage` gives for the file at position `index + j` |
| Playback.PassRecordsAt | paperframe/playlist.py:104 | the save of step j records index `index + j`, the position of the file just shown, because the generator increments only on the next request |
| Playback.PassSaves | paperframe/playlist.py:86-104 | the saves of a pass are exactly its steps' records, in order |
| Playback.PassShowsObtained | paperframe/playlist.py:86-103 | a pass displays exactly the images its steps obtained, in order |
| Playback.PassNeverClears | paperframe/playlist.py:85-106 | a pass never clears the save |
| Playback.PlayStep | paperframe/playlist.py:87-106 | one iteration appends prepare/display/sleep only when an image was obtained, then the save of the playlist and the wait, and leaves the save file holding the playlist; the cache keeps agreeing with the probe |
| Playback.PlayNext | paperframe/playlist.py:86-106 | one turn of the `for` loop plays the current file, then the generator moves the index on by one and yields the next file, if any |
| Playback.PlayRemaining | paperframe/playlist.py:86-106 | the `for` loop takes one step per remaining file and leaves the index one past the last file; its trace is the pass trace; the save file holds the position of the last file played |
| Playback.PlayMediaFiles | paperframe/playlist.py:85-106 | one pass leaves playback where `NextPass` says, with the events of `PassEvents`, and keeps the config; after a pass that played a file, the save file holds the playlist positioned at the last file played, which is the pass's last saved record |
| Playback.RunNeverClears | paperframe/playlist.py:128-133 | however many looping passes run, none clears the save |
| Playback.LoopingPass | paperframe/playlist.py:128-131 | with `loop`, a pass over a non-empty playlist ends at index 0 with the files permuted and the config and frame kept |
| Playback.LoopingRun | paperframe/playlist.py:128-133 | with `loop`, every pass after the first replays the whole, permuted list from index 0, and the step count grows by the list length per pass |
| Playback.SinglePassFinishes | paperframe/playlist.py:128-133 | without `loop`, the single pass leaves the playlist no longer in progress with its files unchanged |
| Playback.PlayPass | paperframe/playlist.py:129 | one pass of `__play_media_files` extends the run by exactly one `Run` pass and its events; an empty pass changes neither the trace nor the save file, and after any other the save file holds the last record saved |
| Playback.PlayPasses | paperframe/playlist.py:128-133 | the `while True` runs one pass without `loop`, and with `loop` keeps running until the budget ends; playback ends where `Run` says, with the events of `RunTrace`; once any step ran, the save file holds the last record saved, and before that it is untouched |
| Playback.StartPlayback | paperframe/playlist.py:125-135 | an empty playlist raises before anything changes (no event, and the playlist, save file and cache untouched); with `loop` only the interrupt ends playback, leaving the save file with the last record saved (or untouched when no step ran) for the restart; without `loop` one pass runs, then the save is removed (raising when absent), and the `clear_image` lookup raises |
| LegacyUtil.UpperIdempotent | src/job.py:12 | upper-casing twice is upper-casing once |
| LegacyUtil.ParseMode | src/job.py:12 | `Mode[name.upper()]` finds the member whose name is the upper-cased text, and fails exactly when no member has that name |
| LegacyUtil.ParseModeIgnoresCase | src/job.py:12 | every spelling parses as its upper-case form does |
| LegacyUtil.ParseModeNames | src/job.py:12 | a mode's stored name, and its lower-case spelling, both parse back to the mode |
| LegacyUtil.PathText | src/job.py:25-26 | `str(path)` of a given path is the path itself |
| LegacyUtil.ValidatePathType | src/util.py:9-13 | a path is accepted if and only if it is a regular file or a directory, and is then returned unchanged; otherwise the error names the value |
| LegacyUtil.ValidatePathAndMode | src/util.py:16-28 | ALBUM and PLAYLIST pass if and only if the path is a directory, IMAGE if and only if its suffix is an image suffix, VIDEO if and only if its suffix is a video suffix; the error says which check failed |
| LegacyUtil.AlbumDirectoryIgnoresSuffix | src/util.py:17-20 | an album directory named like a video passes |
| LegacyUtil.ImageModeIgnoresFileKind | src/util.py:21-24 | IMAGE mode accepts any path named like an image: a directory, or a path that does not exist |
| LegacyUtil.VideoModeIsCaseSensitive | src/util.py:25-28 | VIDEO mode refuses a `.MP4` file |
| LegacyJob.NewJob | src/job.py:11-17 | `Job(...)` succeeds exactly when the mode parses, keeps every other argument as given, and otherwise fails naming the upper-cased mode |
| LegacyJob.JobToJson | src/job.py:22-30 | `toJson`; no contract of its own, its fields are stated by `LegacyJob.JobToJsonFields` and its round trip by `LegacyJob.SaveThenResume` |
| LegacyJob.JobToJsonFields | src/job.py:22-30 | `toJson` has exactly six keys: the mode's name, both paths as text, and frame, random and loop verbatim |
| LegacyJob.JobFromJson | src/job.py:43-46 | a record is accepted only with exactly the six keys, string paths, and a mode that parses; the job it gives has the record's fields |
| LegacyJob.BuildJob | src/job.py:39-50 | `build_job`; no contract of its own, stated by `LegacyJob.FreshJob`, `LegacyJob.ResumeIgnoresArguments` and `LegacyJob.SaveThenResume` |
| LegacyJob.FreshJob | src/job.py:47-48 | without resume, or with no state file, the job is the command line's at frame 0, and it fails only on a mode that does not parse |
| LegacyJob.ResumeIgnoresArguments | src/job.py:41-46 | when resuming from a state file, the command-line arguments make no difference |
| LegacyJob.SaveThenResume | src/job.py:32-46 | saving then resuming gives back mode, frame, random, loop and both paths as text |
| LegacyJob.SaveThenResumeExact | src/job.py:32-46 | a job with both paths set resumes exactly as it was saved |
| LegacyJob.AbsentDirectoryResumesAsNone | src/job.py:25 | a job saved without a directory resumes with the directory `Path("None")` |
| LegacyJob.Job.constructor | src/job.py:11-17 | a job holds exactly the fields it was built with |
| LegacyJob.Job.ToJson | src/job.py:22-30 | the record resumes as this job, with its paths as text |
| LegacyJob.Job.Save | src/job.py:32-34 | `save` overwrites the state file with the job's record and logs one save event |
| LegacyProgress.ProgressToJson | src/progresslog.py:25-32 | the record has exactly the five keys: mode, the path as text, frame, random and loop |
| LegacyProgress.ProgressFromJson | src/progresslog.py:44-51 | a record is accepted only with all five keys and a string path, and the log it gives has the record's fields; a missing mode is reported first |
| LegacyProgress.FreshPath | src/progresslog.py:53-56 | the path of a fresh log; no contract of its own, stated by `LegacyProgress.FreshLoad` and `LegacyProgress.FreshPathIsCaseSensitive` |
| LegacyProgress.Load | src/progresslog.py:40-59 | `load`; no contract of its own, stated by `LegacyProgress.FreshLoad`, `LegacyProgress.ResumeIgnoresArguments` and `LegacyProgress.SaveThenLoad` |
| LegacyProgress.FreshLoad | src/progresslog.py:52-57 | without resume, or with no progress file, the log is the command line's at frame 0, with the directory for "album" and "playlist" and the file otherwise |
| LegacyProgress.FreshPathIsCaseSensitive | src/progresslog.py:53-56 | the mode comparison is exact: "ALBUM" takes the file, "album" the directory |
| LegacyProgress.ResumeIgnoresArguments | src/progresslog.py:42-51 | when resuming from a progress file, the arguments make no difference |
| LegacyProgress.SaveThenLoad | src/progresslog.py:35-51 | saving then loading with resume gives back all five fields, the path as text |
| LegacyProgress.SaveThenLoadExact | src/progresslog.py:35-51 | a log with a path loads back exactly as it was saved |
| LegacyVideo.GetVideoInfo | src/videos.py:31-52 | the list-typed cache is never written, so every call probes; a failed probe gives None, a successful one the information derived as in the newer player |
| LegacyVideo.StartFrame | src/videos.py:78-79 | in VIDEO mode a start frame past `frame_count` becomes 0, even without `loop`; otherwise the job's frame is kept |
| LegacyVideo.NextFrame | src/videos.py:97-100 | each advance adds exactly one, except that with `loop` a frame past `frame_count` wraps to 0; with `loop` a frame in range stays in range |
| LegacyVideo.FramesWithoutLoop | src/videos.py:97 | without `loop`, k advances add exactly k |
| LegacyVideo.FrameAfterSplit | src/videos.py:97-100 | k advances after a advances are a + k advances |
| LegacyVideo.FramesClimb | src/videos.py:97-100 | before the end of the video, even with `loop`, every advance adds one |
| LegacyVideo.LoopingCycle | src/videos.py:97-100 | with `loop` the frames climb to `frame_count`, go back to 0, and after `frame_count + 1` turns are where they started |
| LegacyVideo.LoopingStaysInRange | src/videos.py:81 | with `loop`, from a frame not past the end, the loop test `frame <= frame_count` holds for ever |
| LegacyVideo.SingleRunLength | src/videos.py:81 | without `loop`, a run from a frame in range ends after exactly `frame_count + 1 - start` turns, at `frame_count + 1` |
| LegacyVideo.VideoRecordsAt | src/videos.py:97-103 | the save of turn j records the frame after j + 1 advances: the save comes after the advance |
| LegacyVideo.VideoImagesAt | src/videos.py:87-88 | turn j asks frame extraction for the frame after j advances |
| LegacyVideo.SavesVideoStep | src/videos.py:97-103 | a turn saves its advanced job exactly once, whether or not a frame was obtained |
| LegacyVideo.ShownVideoStep | src/videos.py:87-95 | a turn displays the frame it obtained, if any, and nothing else |
| LegacyVideo.VideoSaves | src/videos.py:81-103 | the saves of the loop are exactly the advanced jobs of its turns, in order |
| LegacyVideo.VideoShows | src/videos.py:81-95 | the loop displays exactly the frames it obtained, in order; a failed frame shows nothing but still advances and saves |
| LegacyVideo.TurnsRanEach | src/videos.py:81 | the turns ran if and only if each of them began with the loop test holding and did not raise |
| LegacyVideo.VideoTurn | src/videos.py:82-108 | one turn prepares and gets the frame. It raises after the prepare when it got a frame of a video with `frame_count` 0. Otherwise it displays an obtained frame, advances, saves, sleeps and waits, and the state file holds the job |
| LegacyVideo.PlayTurn | src/videos.py:82-108 | turn k of a loop moves the job from the frame after k advances to the one after k + 1, and extends the trace by one turn |
| LegacyVideo.PlayTurns | src/videos.py:81-108 | the loop runs while `frame <= frame_count`, within the budget. It finishes if and only if the frame has passed `frame_count`, and raises only on a `frame_count` of 0. The job ends at the frame after the turns it ran and the trace is theirs |
| LegacyVideo.DisplayVideo | src/videos.py:75-108 | with no video, VIDEO mode raises and other modes finish at once, changing nothing; with a video the loop starts from `StartFrame` and runs the turns of `PlayTurns`: it finishes exactly when the frame has passed `frame_count`, and a raise is the zero-`frame_count` message of the turn at the job's frame, after the trace of the completed turns and that turn's prepare |
| LegacyVideo.DisplayVideoAsWritten | src/videos.py:75-108 | with no video it changes nothing and raises only in VIDEO mode; as written: once a video is there and the start frame is in range, the first turn raises on `job.path` right after its prepare, before any frame is obtained, shown or saved |

## Left out

- File and JSON I/O: save files, the state file and the progress file are
  JSON values handed in or written to `Effects.Io.saveFile`; reading,
  parsing and the file locations (`__get_savefile`, `STATE_FILE`,
  `PROGRESS_FILE`) are not modelled.
- `__read_playlist_file` and `load_config` (paperframe/playlist.py:59-67,
  paperframe/util.py:20-25): the definition they produce is a parameter of
  `Playback.InitPlaylist`.
- Paths are already normalised strings: `expanduser`, `absolute` and
  `str(Path(...))` are the identity. Because of this `LegacyUtil.ValidatePathType`
  returns its value unchanged. Trailing slashes and symbolic links are not
  modelled; a path is a regular file, a directory with its listing, or
  something else.
- ffmpeg and PIL are oracles: the image loader, the probe and frame
  extraction are tables in `Playback.World` and `LegacyVideo.VideoWorld`.
- `get_frame` (paperframe/videos.py:51-76) is the oracle `Playback.FrameAt`.
  It catches every exception, including the division by `frame_count` in
  its debug message, so it never raises and the oracle need not either.
- Floating point: fps, `frame_time = 1000 / fps`, `int(duration * fps)` and
  the millisecond timecode. The probe report gives the estimated frame count
  as a natural number, and the frame oracles are keyed by the frame number
  instead of the timecode.
- `time.perf_counter` and `time.sleep`: the seconds each step takes are
  inputs (natural numbers), and only the computed pause is recorded.
- `random.shuffle` is a Fisher-Yates shuffle driven by given draws, each
  reduced modulo the range (`ListOrder.Reduce`); only the permutation
  property is relied on.
- Signal handlers and the external interrupt: a budget of passes or turns
  stands for them.
- The CLI and mode dispatch (main.py, paper-frame.py), logging, the e-paper
  drivers (epdproxy) and `epd.width`/`epd.height`.
- `images.load_image` takes one argument but paperframe/playlist.py:90 and
  :111 pass three. The loader is an oracle, so the resulting `TypeError` is
  not modelled.
- `__clear_display` (paperframe/playlist.py:109-122) is unreachable, because
  `playlist.config.clear_image` raises first; `Playback.StartPlayback` ends in
  that error.
- `playlist.frame_count = ...` (paperframe/playlist.py:96) sets an attribute
  that nothing reads and `to_json` does not write.
- src/constants.py does not define `Mode` or `VALID_IMAGE_TYPES`. src/util.py
  and src/job.py import both, and src/videos.py:10 and paper-frame.py:14
  import `Mode`. `Mode` is
  `LegacyUtil.Mode`, with the four members paper-frame.py uses. The image
  suffix list is a parameter of `LegacyUtil.ValidatePathAndMode`.
- `save` of src/progresslog.py:35-37 writes `ProgressToJson`; it has no
  member of its own, and `LegacyProgress.SaveThenLoad` states its round trip.
- `Job.getNextPathItem` (src/job.py:36-37) is a stub that takes no `self`;
  `__str__` methods and `VideoInfo.subtitle_file` are not modelled.
- LegacyUtil.ParseMode: `str.upper()` is modelled for ASCII letters only, not
  for the rest of Unicode.
- PlaylistModels.PlaylistFromJson: a negative saved `index` is rejected. In
  Python, `iter` would then yield files counted from the end of the list.
- PlaylistModels.PlaylistFromJson, PlaylistModels.DefinitionFromJson,
  LegacyJob.JobFromJson and LegacyProgress.ProgressFromJson: a field of the
  wrong JSON type is rejected at decode time. Python stores any value in the
  attribute, and fails later or not at all.

## Findings

| source | as written | input that shows it | evidently intended | confidence | as-written member | corrected member |
|---|---|---|---|---|---|---|
| src/videos.py:87 | the loop reads `job.path` at :87 (the extraction), :90 (the debug message) and :94 (the error message), but a `Job` (src/job.py:11-17) has `dir` and `file` and no `path`, so the first turn raises `AttributeError` at :87 right after `epd.prepare()` | any job, in any mode, with a probed video whose start frame is at most `frame_count`, for example a fresh VIDEO job at frame 0 | `job.file` at :87, :90 and :94, the video the job plays | not executed | LegacyVideo.DisplayVideoAsWritten | LegacyVideo.DisplayVideo |

A second defect belongs to the corrected program, not to the code as
written, and is listed for information only. The debug message of
src/videos.py:89-91 divides by `frame_count`, and it is built whenever a frame
was obtained. As written, that message first evaluates `job.path`, so it never
gets as far as the division. Once `job.file` is read at :87, :90 and :94, a
video with `frame_count` 0 raises `ZeroDivisionError` on its first displayed
frame. `LegacyVideo.VideoTurn`, `LegacyVideo.PlayTurns` and
`LegacyVideo.DisplayVideo` model the corrected program, so they keep this
behaviour.
