/**
 * src/videos.py: the older player's single-video loop. It shows one frame
 * per turn, advances the job's frame (wrapping to 0 with `loop`), saves
 * the job after every turn and waits out the rest of the turn.
 */
module LegacyVideo {
  import opened Wrappers
  import opened JsonValues
  import opened VideoInfoCache
  import opened Effects
  import opened LegacyUtil
  import opened LegacyJob

  // ---------------------------------------------------------------- get_video_info

  /** `VIDEO_INFO_LIST`: a list that nothing ever adds to. */
  const VideoInfoList: seq<string> := []

  /** The paths handed to the probe, in order. */
  class ProbeLog {
    ghost var probed: seq<string>

    constructor ()
      ensures probed == []
    {
      probed := [];
    }
  }

  /**
   * `get_video_info` of src/videos.py: its cache test is on the list that
   * stays empty, so every call probes; the information is derived as in
   * the newer player, and a failed probe gives `None`.
   */
  method GetVideoInfo(log: ProbeLog, probe: Prober, path: string) returns (info: Option<VideoInfo>)
    modifies log
    ensures log.probed == old(log.probed) + [path]
    ensures info.None? <==> path !in probe
    ensures info.Some? ==> info.value == InfoOf(probe[path]) && info.value.report == probe[path]
  {
    if path !in VideoInfoList {
      log.probed := log.probed + [path];
      var report := Probe(probe, path);
      if report.None? {
        info := None;
      } else {
        info := Some(InfoOf(report.value));
      }
    }
  }

  // ---------------------------------------------------------------- frames

  /**
   * What the loop learns from outside: the image that frame extraction
   * returns for a path and a frame number (a pair outside the table fails),
   * and the seconds each turn takes (none recorded: 0).
   */
  datatype VideoWorld = VideoWorld(frames: map<(string, int), Image>, elapsed: map<nat, nat>)

  function GrabFrame(w: VideoWorld, path: string, frame: int): Option<Image>
  {
    if (path, frame) in w.frames then Some(w.frames[(path, frame)]) else None
  }

  function TurnSeconds(w: VideoWorld, n: nat): nat
  {
    if n in w.elapsed then w.elapsed[n] else 0
  }

  /**
   * The frame the loop starts from (videos.py:78-79): in VIDEO mode a frame
   * past the end restarts at 0, even without `loop`; otherwise the job's frame.
   */
  function StartFrame(mode: Mode, frame: int, frameCount: nat): (r: int)
    ensures mode == VIDEO ==> r <= frameCount
    ensures r == frame || (r == 0 && mode == VIDEO && frame > frameCount)
  {
    if mode == VIDEO && frame > frameCount then 0 else frame
  }

  /** The advance of videos.py:97-100: one frame on, and back to 0 past the end when looping. */
  function NextFrame(frame: int, frameCount: nat, loop: bool): (r: int)
    ensures r == frame + 1 || (r == 0 && loop && frame + 1 > frameCount)
    ensures loop && frame <= frameCount ==> r <= frameCount
    ensures !loop ==> r == frame + 1
  {
    if frame + 1 > frameCount && loop then 0 else frame + 1
  }

  /** The frame after k advances from `frame`. */
  function FrameAfter(frame: int, frameCount: nat, loop: bool, k: nat): int
    decreases k
  {
    if k == 0 then frame else NextFrame(FrameAfter(frame, frameCount, loop, k - 1), frameCount, loop)
  }

  /** Without `loop` every advance adds one. */
  lemma {:induction false} FramesWithoutLoop(frame: int, frameCount: nat, k: nat)
    ensures FrameAfter(frame, frameCount, false, k) == frame + k
    decreases k
  {
    if k > 0 {
      FramesWithoutLoop(frame, frameCount, k - 1);
    }
  }

  /** k advances after a advances are a + k advances. */
  lemma {:induction false} FrameAfterSplit(frame: int, frameCount: nat, loop: bool, a: nat, k: nat)
    ensures FrameAfter(FrameAfter(frame, frameCount, loop, a), frameCount, loop, k) == FrameAfter(frame, frameCount, loop, a + k)
    decreases k
  {
    if k > 0 {
      FrameAfterSplit(frame, frameCount, loop, a, k - 1);
    }
  }

  /** Before the end of the video, even with `loop`, every advance adds one. */
  lemma {:induction false} FramesClimb(frame: int, frameCount: nat, loop: bool, k: nat)
    requires frame + k <= frameCount
    ensures FrameAfter(frame, frameCount, loop, k) == frame + k
    decreases k
  {
    if k > 0 {
      FramesClimb(frame, frameCount, loop, k - 1);
    }
  }

  /**
   * With `loop` the frames run from the start to frame_count, go back to
   * 0, and after frame_count + 1 turns are where they started.
   */
  lemma LoopingCycle(frame: int, frameCount: nat)
    requires 0 <= frame <= frameCount
    ensures FrameAfter(frame, frameCount, true, frameCount - frame) == frameCount
    ensures FrameAfter(frame, frameCount, true, frameCount - frame + 1) == 0
    ensures FrameAfter(frame, frameCount, true, frameCount + 1) == frame
  {
    var toEnd := frameCount - frame;
    FramesClimb(frame, frameCount, true, toEnd);
    FramesClimb(0, frameCount, true, frame);
    FrameAfterSplit(frame, frameCount, true, toEnd + 1, frame);
  }

  /** With `loop` from a frame not past the end, the loop test `frame <= frame_count` holds for ever. */
  lemma {:induction false} LoopingStaysInRange(frame: int, frameCount: nat, k: nat)
    requires frame <= frameCount
    ensures FrameAfter(frame, frameCount, true, k) <= frameCount
    decreases k
  {
    if k > 0 {
      LoopingStaysInRange(frame, frameCount, k - 1);
    }
  }

  /** Without `loop` a run that finished from a frame in range took frame_count + 1 - start turns and stopped at frame_count + 1. */
  lemma SingleRunLength(frame: int, frameCount: nat, steps: nat)
    requires frame <= frameCount
    requires forall j :: 0 <= j < steps ==> FrameAfter(frame, frameCount, false, j) <= frameCount
    requires FrameAfter(frame, frameCount, false, steps) > frameCount
    ensures steps == frameCount + 1 - frame
    ensures FrameAfter(frame, frameCount, false, steps) == frameCount + 1
  {
    FramesWithoutLoop(frame, frameCount, steps);
    if steps > 0 {
      FramesWithoutLoop(frame, frameCount, steps - 1);
    }
  }

  // ---------------------------------------------------------------- one turn

  /**
   * The percentage in the debug message of videos.py:89-91 divides by
   * frame_count; the f-string is built before logging, so a turn that got
   * an image of a video with frame_count 0 raises `ZeroDivisionError`.
   */
  predicate TurnRaises(w: VideoWorld, s: JobState, frameCount: nat)
  {
    frameCount == 0 && GrabFrame(w, PathText(s.file), s.frame).Some?
  }

  /**
   * t followed by the events of a turn of the loop at job state s, turn
   * number n: prepare, the display only when a frame was obtained, the save
   * of the advanced job, sleep and the wait.
   */
  function VideoStep(t: seq<Event>, w: VideoWorld, s: JobState, frameCount: nat, wait: int, n: nat): seq<Event>
  {
    var image := GrabFrame(w, PathText(s.file), s.frame);
    (if image.Some? then t + [Prepare] + [Display(image.value)] else t + [Prepare])
      + [Save(JobToJson(s.(frame := NextFrame(s.frame, frameCount, s.loop))))]
      + [Sleep] + [Wait(Delay(wait, TurnSeconds(w, n)))]
  }

  /** t followed by the events of the first k turns from job state s. */
  function VideoTrace(t: seq<Event>, w: VideoWorld, s: JobState, frameCount: nat, wait: int, k: nat): seq<Event>
    decreases k
  {
    if k == 0 then t
    else VideoStep(VideoTrace(t, w, s, frameCount, wait, k - 1), w,
                   s.(frame := FrameAfter(s.frame, frameCount, s.loop, k - 1)), frameCount, wait, k - 1)
  }

  /** The records the first k turns save: each turn's job after its advance. */
  function VideoRecords(s: JobState, frameCount: nat, k: nat): (r: seq<Json>)
    ensures |r| == k
    decreases k
  {
    if k == 0 then [] else VideoRecords(s, frameCount, k - 1) + [JobToJson(s.(frame := FrameAfter(s.frame, frameCount, s.loop, k)))]
  }

  lemma {:induction false} VideoRecordsAt(s: JobState, frameCount: nat, k: nat, j: nat)
    requires j < k
    ensures VideoRecords(s, frameCount, k)[j] == JobToJson(s.(frame := FrameAfter(s.frame, frameCount, s.loop, j + 1)))
    decreases k
  {
    if j < k - 1 {
      VideoRecordsAt(s, frameCount, k - 1, j);
    }
  }

  /** What the first k turns get from frame extraction, obtained or not. */
  function VideoImages(w: VideoWorld, s: JobState, frameCount: nat, k: nat): (r: seq<Option<Image>>)
    ensures |r| == k
    decreases k
  {
    if k == 0 then []
    else VideoImages(w, s, frameCount, k - 1) + [GrabFrame(w, PathText(s.file), FrameAfter(s.frame, frameCount, s.loop, k - 1))]
  }

  lemma {:induction false} VideoImagesAt(w: VideoWorld, s: JobState, frameCount: nat, k: nat, j: nat)
    requires j < k
    ensures VideoImages(w, s, frameCount, k)[j] == GrabFrame(w, PathText(s.file), FrameAfter(s.frame, frameCount, s.loop, j))
    decreases k
  {
    if j < k - 1 {
      VideoImagesAt(w, s, frameCount, k - 1, j);
    }
  }

  /** A turn saves its advanced job, once, whether or not a frame was obtained. */
  lemma SavesVideoStep(t: seq<Event>, prev: seq<Event>, w: VideoWorld, s: JobState, frameCount: nat, wait: int, n: nat,
                       records: seq<Json>)
    requires Saves(prev) == Saves(t) + records
    ensures Saves(VideoStep(prev, w, s, frameCount, wait, n))
         == Saves(t) + (records + [JobToJson(s.(frame := NextFrame(s.frame, frameCount, s.loop)))])
  {
    var image := GrabFrame(w, PathText(s.file), s.frame);
    var record := JobToJson(s.(frame := NextFrame(s.frame, frameCount, s.loop)));
    var h := if image.Some? then prev + [Prepare] + [Display(image.value)] else prev + [Prepare];
    SavesSnoc(prev, Prepare);
    if image.Some? {
      SavesSnoc(prev + [Prepare], Display(image.value));
    }
    SavesSnoc(h, Save(record));
    SavesSnoc(h + [Save(record)], Sleep);
    SavesSnoc(h + [Save(record)] + [Sleep], Wait(Delay(wait, TurnSeconds(w, n))));
    AppendAssoc(Saves(t), records, [record]);
  }

  /** A turn displays the frame it obtained, if any, and nothing else. */
  lemma ShownVideoStep(t: seq<Event>, prev: seq<Event>, w: VideoWorld, s: JobState, frameCount: nat, wait: int, n: nat,
                       images: seq<Option<Image>>)
    requires Shown(prev) == Shown(t) + Present(images)
    ensures Shown(VideoStep(prev, w, s, frameCount, wait, n))
         == Shown(t) + Present(images + [GrabFrame(w, PathText(s.file), s.frame)])
  {
    var image := GrabFrame(w, PathText(s.file), s.frame);
    var record := JobToJson(s.(frame := NextFrame(s.frame, frameCount, s.loop)));
    var h := if image.Some? then prev + [Prepare] + [Display(image.value)] else prev + [Prepare];
    ShownSnoc(prev, Prepare);
    if image.Some? {
      ShownSnoc(prev + [Prepare], Display(image.value));
    }
    ShownSnoc(h, Save(record));
    ShownSnoc(h + [Save(record)], Sleep);
    ShownSnoc(h + [Save(record)] + [Sleep], Wait(Delay(wait, TurnSeconds(w, n))));
    PresentSnoc(images, image);
    AppendAssoc(Shown(t), Present(images), if image.Some? then [image.value] else []);
  }

  /** Every turn saves, after its advance: the j-th save records the frame the j+1-th turn shows. */
  lemma {:induction false} VideoSaves(t: seq<Event>, w: VideoWorld, s: JobState, frameCount: nat, wait: int, k: nat)
    ensures Saves(VideoTrace(t, w, s, frameCount, wait, k)) == Saves(t) + VideoRecords(s, frameCount, k)
    decreases k
  {
    if k > 0 {
      VideoSaves(t, w, s, frameCount, wait, k - 1);
      SavesVideoStep(t, VideoTrace(t, w, s, frameCount, wait, k - 1), w,
                     s.(frame := FrameAfter(s.frame, frameCount, s.loop, k - 1)), frameCount, wait, k - 1,
                     VideoRecords(s, frameCount, k - 1));
    }
  }

  /** The loop displays exactly the frames it obtained, in order; a failed frame shows nothing. */
  lemma {:induction false} VideoShows(t: seq<Event>, w: VideoWorld, s: JobState, frameCount: nat, wait: int, k: nat)
    ensures Shown(VideoTrace(t, w, s, frameCount, wait, k)) == Shown(t) + Present(VideoImages(w, s, frameCount, k))
    decreases k
  {
    if k > 0 {
      VideoShows(t, w, s, frameCount, wait, k - 1);
      ShownVideoStep(t, VideoTrace(t, w, s, frameCount, wait, k - 1), w,
                     s.(frame := FrameAfter(s.frame, frameCount, s.loop, k - 1)), frameCount, wait, k - 1,
                     VideoImages(w, s, frameCount, k - 1));
    }
  }

  datatype VideoError =
    | NoFrameCount    // `video.frame_count` with `video` None, in VIDEO mode
    | NoPathAttribute // `job.path`: a `Job` has no such attribute
    | ZeroFrameCount  // the percentage of the debug message, for frame_count 0

  /** `Interrupted` is the signal handler's exit, standing for a budget of turns that ran out. */
  datatype VideoOutcome = Finished | Interrupted | Raised(error: VideoError)

  /**
   * One turn of the loop of `display_video` with `str(job.file)` as the
   * path, turn number n: prepare, get the frame, display it if obtained,
   * advance, save, sleep and wait; `raised` when the debug message divides
   * by a frame_count of 0, after the prepare.
   */
  method VideoTurn(job: Job, io: Io, w: VideoWorld, frameCount: nat, wait: int, n: nat) returns (raised: bool)
    modifies job, io
    ensures raised == TurnRaises(w, old(job.State()), frameCount)
    ensures raised ==> job.State() == old(job.State()) && io.trace == old(io.trace) + [Prepare]
                       && io.saveFile == old(io.saveFile)
    ensures !raised ==> job.State() == old(job.State()).(frame := NextFrame(old(job.frame), frameCount, old(job.loop)))
    ensures !raised ==> io.trace == VideoStep(old(io.trace), w, old(job.State()), frameCount, wait, n)
    ensures !raised ==> io.saveFile == Some(JobToJson(job.State()))
  {
    io.Prepare();
    var image := GrabFrame(w, PathText(job.file), job.frame);
    if image.Some? {
      if frameCount == 0 {
        return true;
      }
      io.Display(image.value);
    }
    job.frame := job.frame + 1;
    if job.frame > frameCount && job.loop {
      job.frame := 0;
    }
    job.Save(io);
    io.Sleep();
    io.Wait(Delay(wait, TurnSeconds(w, n)));
    raised := false;
  }

  /** Turn j from job state s began with the loop test `frame <= frame_count` holding and did not raise. */
  predicate TurnOk(w: VideoWorld, s: JobState, fc: nat, j: nat)
  {
    FrameAfter(s.frame, fc, s.loop, j) <= fc && !TurnRaises(w, s.(frame := FrameAfter(s.frame, fc, s.loop, j)), fc)
  }

  /** Every one of the first k turns from job state s was a `TurnOk`. */
  predicate TurnsRan(w: VideoWorld, s: JobState, fc: nat, k: nat)
    decreases k
  {
    k == 0 || (TurnsRan(w, s, fc, k - 1) && TurnOk(w, s, fc, k - 1))
  }

  lemma {:induction false} TurnsRanEach(w: VideoWorld, s: JobState, fc: nat, k: nat)
    ensures TurnsRan(w, s, fc, k) <==> forall j :: 0 <= j < k ==> TurnOk(w, s, fc, j)
    decreases k
  {
    if k > 0 {
      TurnsRanEach(w, s, fc, k - 1);
    }
  }

  /** Turn number k of a loop that started from job state s and extended t0 to the trace so far. */
  method PlayTurn(job: Job, io: Io, w: VideoWorld, fc: nat, wait: int, ghost s: JobState, k: nat, ghost t0: seq<Event>)
    returns (raised: bool)
    requires job.State() == s.(frame := FrameAfter(s.frame, fc, s.loop, k))
    requires io.trace == VideoTrace(t0, w, s, fc, wait, k)
    modifies job, io
    ensures raised == TurnRaises(w, s.(frame := FrameAfter(s.frame, fc, s.loop, k)), fc)
    ensures raised ==> job.State() == old(job.State()) && io.trace == VideoTrace(t0, w, s, fc, wait, k) + [Prepare]
                       && io.saveFile == old(io.saveFile)
    ensures !raised ==> job.State() == s.(frame := FrameAfter(s.frame, fc, s.loop, k + 1))
    ensures !raised ==> io.trace == VideoTrace(t0, w, s, fc, wait, k + 1)
    ensures !raised ==> io.saveFile == Some(JobToJson(job.State()))
  {
    raised := VideoTurn(job, io, w, fc, wait, k);
  }

  /**
   * The `while` of `display_video` from the job as it stands: one turn per
   * frame while `frame <= frame_count`, at most `budget` of them. The job
   * and the trace end where `FrameAfter` and `VideoTrace` say, every turn
   * began with the loop test holding, and the save file holds the job.
   */
  method PlayTurns(job: Job, io: Io, w: VideoWorld, fc: nat, wait: int, budget: nat)
    returns (outcome: VideoOutcome, steps: nat)
    modifies job, io
    ensures steps <= budget
    ensures TurnsRan(w, old(job.State()), fc, steps)
    ensures job.State() == old(job.State()).(frame := FrameAfter(old(job.frame), fc, old(job.loop), steps))
    ensures outcome == Finished <==> job.frame > fc
    ensures outcome == Interrupted ==> steps == budget
    ensures outcome.Raised? ==> outcome.error == ZeroFrameCount && TurnRaises(w, job.State(), fc)
    ensures io.trace == VideoTrace(old(io.trace), w, old(job.State()), fc, wait, steps) + if outcome.Raised? then [Prepare] else []
    ensures io.saveFile == if steps == 0 then old(io.saveFile) else Some(JobToJson(job.State()))
  {
    ghost var s := job.State();
    ghost var t0 := io.trace;
    steps := 0;
    var raised := false;
    while !raised && job.frame <= fc && steps < budget
      invariant steps <= budget
      invariant TurnsRan(w, s, fc, steps)
      invariant job.State() == s.(frame := FrameAfter(s.frame, fc, s.loop, steps))
      invariant raised ==> job.frame <= fc && TurnRaises(w, job.State(), fc)
      invariant io.trace == VideoTrace(t0, w, s, fc, wait, steps) + if raised then [Prepare] else []
      invariant io.saveFile == if steps == 0 then old(io.saveFile) else Some(JobToJson(job.State()))
      decreases budget - steps, if raised then 0 else 1
    {
      raised := PlayTurn(job, io, w, fc, wait, s, steps, t0);
      if !raised {
        steps := steps + 1;
      }
    }
    outcome := if raised then Raised(ZeroFrameCount) else if job.frame <= fc then Interrupted else Finished;
  }

  /**
   * `display_video` with `str(job.file)` as the path of the frames: in
   * VIDEO mode a missing video raises and a frame past the end restarts at
   * 0; then the turns of `PlayTurns` run from that start frame.
   */
  method DisplayVideo(job: Job, io: Io, w: VideoWorld, video: Option<VideoInfo>, wait: int, budget: nat)
    returns (outcome: VideoOutcome, steps: nat)
    modifies job, io
    ensures video.None? ==> steps == 0 && job.State() == old(job.State()) && io.trace == old(io.trace)
                            && io.saveFile == old(io.saveFile)
                            && outcome == if old(job.mode) == VIDEO then Raised(NoFrameCount) else Finished
    ensures video.Some? ==>
      var fc := video.value.frameCount;
      var s := old(job.State()).(frame := StartFrame(old(job.mode), old(job.frame), fc));
      && steps <= budget
      && TurnsRan(w, s, fc, steps)
      && job.State() == s.(frame := FrameAfter(s.frame, fc, s.loop, steps))
      && (outcome == Finished <==> FrameAfter(s.frame, fc, s.loop, steps) > fc)
      && (outcome == Interrupted ==> steps == budget)
      && (outcome.Raised? ==> outcome.error == ZeroFrameCount && TurnRaises(w, job.State(), fc))
      && io.trace == VideoTrace(old(io.trace), w, s, fc, wait, steps) + (if outcome.Raised? then [Prepare] else [])
      && io.saveFile == if steps == 0 then old(io.saveFile) else Some(JobToJson(job.State()))
  {
    steps := 0;
    if video.None? {
      outcome := if job.mode == VIDEO then Raised(NoFrameCount) else Finished;
      return;
    }
    var fc := video.value.frameCount;
    if job.mode == VIDEO && job.frame > fc {
      job.frame := 0;
    }
    outcome, steps := PlayTurns(job, io, w, fc, wait, budget);
  }

  /**
   * `display_video` as written: the loop reads `job.path`, which a `Job`
   * does not have, so once a video is there and the start frame is in
   * range the first turn raises right after its prepare, before any frame
   * is obtained, displayed or saved.
   */
  method DisplayVideoAsWritten(job: Job, io: Io, w: VideoWorld, video: Option<VideoInfo>, wait: int)
    returns (outcome: VideoOutcome)
    modifies job, io
    ensures video.None? ==> job.State() == old(job.State()) && io.trace == old(io.trace) && io.saveFile == old(io.saveFile)
                            && outcome == if old(job.mode) == VIDEO then Raised(NoFrameCount) else Finished
    ensures video.Some? ==>
      var fc := video.value.frameCount;
      var s := old(job.State()).(frame := StartFrame(old(job.mode), old(job.frame), fc));
      && job.State() == s && io.saveFile == old(io.saveFile)
      && (s.frame <= fc ==> outcome == Raised(NoPathAttribute) && io.trace == old(io.trace) + [Prepare])
      && (s.frame > fc ==> outcome == Finished && io.trace == old(io.trace))
  {
    if video.None? {
      outcome := if job.mode == VIDEO then Raised(NoFrameCount) else Finished;
      return;
    }
    var fc := video.value.frameCount;
    if job.mode == VIDEO && job.frame > fc {
      job.frame := 0;
    }
    if job.frame <= fc {
      io.Prepare();
      return Raised(NoPathAttribute);
    }
    outcome := Finished;
  }

}
