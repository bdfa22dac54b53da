/**
 * src/job.py: the job of the older single-video player, its record in the
 * program's state file and the choice between resuming that record and
 * starting afresh from the command line.
 */
module LegacyJob {
  import opened Wrappers
  import opened JsonValues
  import opened LegacyUtil
  import opened Effects

  /** What a `Job` holds. */
  datatype JobState = JobState(mode: Mode, dir: MaybePath, file: MaybePath, frame: int, random: bool, loop: bool)

  /** Why a job cannot be built: a malformed record, or `Mode[...]` raising `KeyError`. */
  datatype JobError = BadRecord(error: DecodeError) | UnknownMode(name: string)

  const JobKeys: set<string> := {"mode", "dir", "file", "frame", "random", "loop"}

  /** `Job(mode, dir, file, frame, random, loop)`: only the mode is checked, case-insensitively. */
  function NewJob(mode: string, dir: MaybePath, file: MaybePath, frame: int, random: bool, loop: bool)
    : (r: Result<JobState, JobError>)
    ensures r.Ok? <==> ParseMode(mode).Some?
    ensures r.Ok? ==> r.value == JobState(ParseMode(mode).value, dir, file, frame, random, loop)
    ensures r.Err? ==> r.error == UnknownMode(Upper(mode))
  {
    match ParseMode(mode)
    case None => Err(UnknownMode(Upper(mode)))
    case Some(m) => Ok(JobState(m, dir, file, frame, random, loop))
  }

  /** `toJson`. */
  function JobToJson(j: JobState): Json
  {
    JObject(map[
      "mode" := JStr(ModeName(j.mode)),
      "dir" := JStr(PathText(j.dir)),
      "file" := JStr(PathText(j.file)),
      "frame" := JInt(j.frame),
      "random" := JBool(j.random),
      "loop" := JBool(j.loop)])
  }

  /** The record holds the mode by name, both paths as text and the rest verbatim, under exactly the six keys. */
  lemma JobToJsonFields(j: JobState)
    ensures var r := JobToJson(j);
      && r.JObject? && r.fields.Keys == JobKeys
      && r.fields["mode"] == JStr(ModeName(j.mode)) && r.fields["frame"] == JInt(j.frame)
      && r.fields["dir"] == JStr(PathText(j.dir)) && r.fields["file"] == JStr(PathText(j.file))
      && r.fields["random"] == JBool(j.random) && r.fields["loop"] == JBool(j.loop)
  {
  }

  /**
   * The resume branch of `build_job` (job.py:43-46): `data['dir']` and
   * `data['file']` become paths, then `Job(**data)` takes exactly the six
   * keyword arguments.
   */
  function JobFromJson(data: Json): (r: Result<JobState, JobError>)
    ensures r.Ok? ==> data.JObject? && data.fields.Keys == JobKeys
    ensures r.Ok? ==> data.fields["dir"] == JStr(PathText(r.value.dir)) && r.value.dir.Some?
    ensures r.Ok? ==> data.fields["file"] == JStr(PathText(r.value.file)) && r.value.file.Some?
    ensures r.Ok? ==> data.fields["frame"] == JInt(r.value.frame)
    ensures r.Ok? ==> data.fields["mode"].JStr? && ParseMode(data.fields["mode"].s) == Some(r.value.mode)
    ensures r.Ok? ==> data.fields["random"] == JBool(r.value.random) && data.fields["loop"] == JBool(r.value.loop)
  {
    if !data.JObject? then Err(BadRecord(NotADict))
    else
      var f := data.fields;
      if "dir" !in f then Err(BadRecord(MissingKey("dir")))
      else if !f["dir"].JStr? then Err(BadRecord(IllTyped("dir")))
      else if "file" !in f then Err(BadRecord(MissingKey("file")))
      else if !f["file"].JStr? then Err(BadRecord(IllTyped("file")))
      else if !(f.Keys <= JobKeys) then Err(BadRecord(UnexpectedArgument))
      else if "mode" !in f then Err(BadRecord(MissingArgument("mode")))
      else if "frame" !in f then Err(BadRecord(MissingArgument("frame")))
      else if "random" !in f then Err(BadRecord(MissingArgument("random")))
      else if "loop" !in f then Err(BadRecord(MissingArgument("loop")))
      else if !f["mode"].JStr? then Err(BadRecord(IllTyped("mode")))
      else if !f["frame"].JInt? then Err(BadRecord(IllTyped("frame")))
      else if !f["random"].JBool? then Err(BadRecord(IllTyped("random")))
      else if !f["loop"].JBool? then Err(BadRecord(IllTyped("loop")))
      else NewJob(f["mode"].s, Some(f["dir"].s), Some(f["file"].s), f["frame"].i, f["random"].b, f["loop"].b)
  }

  /**
   * `build_job`: `state` is what the state file holds, `None` when it is
   * not a file. With `resume` and a state file the record is rebuilt and
   * the arguments are ignored; otherwise a job starts at frame 0.
   */
  function BuildJob(resume: bool, mode: string, dir: MaybePath, file: MaybePath, random: bool, loop: bool,
                    state: Option<Json>): (r: Result<JobState, JobError>)
  {
    if resume && state.Some? then JobFromJson(state.value)
    else NewJob(mode, dir, file, 0, random, loop)
  }

  /** Without resume, or with no state file, the job is the command line's with frame 0; it fails only on a mode that is not a `Mode` name. */
  lemma FreshJob(resume: bool, mode: string, dir: MaybePath, file: MaybePath, random: bool, loop: bool, state: Option<Json>)
    requires !resume || state.None?
    ensures var r := BuildJob(resume, mode, dir, file, random, loop, state);
      && (r.Ok? <==> ParseMode(mode).Some?)
      && (r.Ok? ==> (r.value.frame == 0 && ModeName(r.value.mode) == Upper(mode)
                     && r.value.dir == dir && r.value.file == file && r.value.random == random && r.value.loop == loop))
  {
  }

  /** When resuming from a state file, the command-line arguments make no difference. */
  lemma ResumeIgnoresArguments(state: Json,
                               mode: string, dir: MaybePath, file: MaybePath, random: bool, loop: bool,
                               mode': string, dir': MaybePath, file': MaybePath, random': bool, loop': bool)
    ensures BuildJob(true, mode, dir, file, random, loop, Some(state))
         == BuildJob(true, mode', dir', file', random', loop', Some(state))
  {
  }

  /**
   * Saving then resuming gives back mode, frame, random, loop and both
   * paths as text: a path that was given comes back as it was, and an
   * absent one as the path "None".
   */
  lemma SaveThenResume(j: JobState, mode: string, dir: MaybePath, file: MaybePath, random: bool, loop: bool)
    ensures BuildJob(true, mode, dir, file, random, loop, Some(JobToJson(j)))
         == Ok(j.(dir := Some(PathText(j.dir)), file := Some(PathText(j.file))))
  {
    ParseModeNames(j.mode);
    JobToJsonFields(j);
  }

  /** A job with both paths set resumes exactly as it was saved. */
  lemma SaveThenResumeExact(j: JobState)
    requires j.dir.Some? && j.file.Some?
    ensures JobFromJson(JobToJson(j)) == Ok(j)
  {
    ParseModeNames(j.mode);
    JobToJsonFields(j);
  }

  /** A job saved without a directory resumes with the directory "None". */
  lemma AbsentDirectoryResumesAsNone(j: JobState)
    requires j.dir.None?
    ensures JobFromJson(JobToJson(j)).Ok?
    ensures JobFromJson(JobToJson(j)).value.dir == Some("None")
  {
    ParseModeNames(j.mode);
    JobToJsonFields(j);
  }

  /** `Job`: the fields that the video loop advances and `save` records. */
  class Job {
    var mode: Mode
    var dir: MaybePath
    var file: MaybePath
    var frame: int
    var random: bool
    var loop: bool

    constructor (s: JobState)
      ensures State() == s
    {
      mode, dir, file, frame, random, loop := s.mode, s.dir, s.file, s.frame, s.random, s.loop;
    }

    function State(): JobState
      reads this
    {
      JobState(mode, dir, file, frame, random, loop)
    }

    /** `toJson`: a record from which resuming rebuilds this job, with its paths as text. */
    function ToJson(): (j: Json)
      reads this
      ensures JobFromJson(j) == Ok(State().(dir := Some(PathText(dir)), file := Some(PathText(file))))
    {
      SaveThenResume(State(), "", None, None, false, false);
      JobToJson(State())
    }

    /** `save`: overwrites the state file with the job's record. */
    method Save(io: Io)
      modifies io
      ensures io.trace == old(io.trace) + [Event.Save(JobToJson(State()))]
      ensures io.saveFile == Some(JobToJson(State()))
    {
      var record := ToJson();
      io.WriteSave(record);
    }
  }
}
