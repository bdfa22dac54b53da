/**
 * src/progresslog.py: the progress record of the older player and how it
 * is loaded, either from the progress file or afresh from the command
 * line.
 */
module LegacyProgress {
  import opened Wrappers
  import opened JsonValues
  import opened LegacyUtil

  /** What a `ProgressLog` holds; the mode is the command line's text, not a `Mode`. */
  datatype ProgressLog = ProgressLog(mode: string, path: MaybePath, frame: int, random: bool, loop: bool)

  const ProgressKeys: set<string> := {"mode", "path", "frame", "random", "loop"}

  /** `toJson`: the five fields, the path as text. */
  function ProgressToJson(p: ProgressLog): (r: Json)
    ensures r.JObject? && r.fields.Keys == ProgressKeys
    ensures r.fields["mode"] == JStr(p.mode) && r.fields["path"] == JStr(PathText(p.path))
    ensures r.fields["frame"] == JInt(p.frame) && r.fields["random"] == JBool(p.random) && r.fields["loop"] == JBool(p.loop)
  {
    JObject(map[
      "mode" := JStr(p.mode),
      "path" := JStr(PathText(p.path)),
      "frame" := JInt(p.frame),
      "random" := JBool(p.random),
      "loop" := JBool(p.loop)])
  }

  /**
   * The resume branch of `load` (progresslog.py:44-51): the five entries
   * are looked up in this order and the path text becomes a path; other
   * keys are ignored.
   */
  function ProgressFromJson(data: Json): (r: Result<ProgressLog, DecodeError>)
    ensures r.Ok? ==> data.JObject? && ProgressKeys <= data.fields.Keys
    ensures r.Ok? ==> r.value.path.Some? && data.fields["path"] == JStr(PathText(r.value.path))
    ensures r.Ok? ==> data.fields["mode"] == JStr(r.value.mode) && data.fields["frame"] == JInt(r.value.frame)
    ensures r.Ok? ==> data.fields["random"] == JBool(r.value.random) && data.fields["loop"] == JBool(r.value.loop)
    ensures data.JObject? && "mode" !in data.fields ==> r == Err(MissingKey("mode"))
  {
    if !data.JObject? then Err(NotADict)
    else
      var f := data.fields;
      if "mode" !in f then Err(MissingKey("mode"))
      else if "path" !in f then Err(MissingKey("path"))
      else if !f["path"].JStr? then Err(IllTyped("path"))
      else if "frame" !in f then Err(MissingKey("frame"))
      else if "random" !in f then Err(MissingKey("random"))
      else if "loop" !in f then Err(MissingKey("loop"))
      else if !f["mode"].JStr? then Err(IllTyped("mode"))
      else if !f["frame"].JInt? then Err(IllTyped("frame"))
      else if !f["random"].JBool? then Err(IllTyped("random"))
      else if !f["loop"].JBool? then Err(IllTyped("loop"))
      else Ok(ProgressLog(f["mode"].s, Some(f["path"].s), f["frame"].i, f["random"].b, f["loop"].b))
  }

  /** The fresh branch of `load`: the directory for the "album" and "playlist" modes, the file for any other. */
  function FreshPath(mode: string, dir: MaybePath, file: MaybePath): (r: MaybePath)
  {
    if mode == "album" || mode == "playlist" then dir else file
  }

  /**
   * `load`: `progress` is what the progress file holds, `None` when it is
   * not a file.
   */
  function Load(resume: bool, mode: string, dir: MaybePath, file: MaybePath, random: bool, loop: bool,
                progress: Option<Json>): (r: Result<ProgressLog, DecodeError>)
  {
    if resume && progress.Some? then ProgressFromJson(progress.value)
    else Ok(ProgressLog(mode, FreshPath(mode, dir, file), 0, random, loop))
  }

  /** Without resume, or with no progress file, the log is the command line's at frame 0. */
  lemma FreshLoad(resume: bool, mode: string, dir: MaybePath, file: MaybePath, random: bool, loop: bool, progress: Option<Json>)
    requires !resume || progress.None?
    ensures var r := Load(resume, mode, dir, file, random, loop, progress);
      && r.Ok? && r.value.frame == 0 && r.value.mode == mode && r.value.random == random && r.value.loop == loop
      && (mode == "album" || mode == "playlist" ==> r.value.path == dir)
      && (mode != "album" && mode != "playlist" ==> r.value.path == file)
  {
  }

  /** The mode names are compared exactly: "ALBUM" takes the file, not the directory. */
  lemma FreshPathIsCaseSensitive(dir: MaybePath, file: MaybePath)
    ensures FreshPath("ALBUM", dir, file) == file
    ensures FreshPath("album", dir, file) == dir
  {
    assert "ALBUM"[0] != "album"[0];
    assert "ALBUM"[0] != "playlist"[0];
  }

  /** When resuming from a progress file, the arguments make no difference. */
  lemma ResumeIgnoresArguments(progress: Json,
                               mode: string, dir: MaybePath, file: MaybePath, random: bool, loop: bool,
                               mode': string, dir': MaybePath, file': MaybePath, random': bool, loop': bool)
    ensures Load(true, mode, dir, file, random, loop, Some(progress))
         == Load(true, mode', dir', file', random', loop', Some(progress))
  {
  }

  /**
   * `save` then `load` with resume gives back all five fields, the path as
   * text: a given path as it was, an absent one as the path "None".
   */
  lemma SaveThenLoad(p: ProgressLog, mode: string, dir: MaybePath, file: MaybePath, random: bool, loop: bool)
    ensures Load(true, mode, dir, file, random, loop, Some(ProgressToJson(p))) == Ok(p.(path := Some(PathText(p.path))))
  {
  }

  lemma SaveThenLoadExact(p: ProgressLog)
    requires p.path.Some?
    ensures ProgressFromJson(ProgressToJson(p)) == Ok(p)
  {
  }
}
