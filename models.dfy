/**
 * paperframe/models.py: the playlist definition that a playlist file
 * configures, and the playlist cursor that playback advances and the save
 * file records.
 */
module PlaylistModels {
  import opened Wrappers
  import opened JsonValues
  import ListOrder

  const DefaultWaitSeconds: int := 30
  const DefaultRandom := false
  const DefaultLoop := false
  const DefaultResumePlayback := false
  const DefaultClearDisplay := true

  /** `PlaylistDefinition`: the six instance attributes its constructor sets. */
  datatype Definition = Definition(
    mediaPath: string,
    waitSeconds: int,
    random: bool,
    loop: bool,
    resumePlayback: bool,
    clearDisplay: bool)

  const DefinitionKeys: set<string> :=
    {"media_path", "wait_seconds", "random", "loop", "resume_playback", "clear_display"}

  /** `PlaylistDefinition(media_path)` with every other argument left at its default. */
  function NewDefinition(mediaPath: string): (d: Definition)
    ensures d.mediaPath == mediaPath && d.waitSeconds == 30
    ensures !d.random && !d.loop && !d.resumePlayback && d.clearDisplay
  {
    Definition(mediaPath, DefaultWaitSeconds, DefaultRandom, DefaultLoop, DefaultResumePlayback, DefaultClearDisplay)
  }

  /** `to_json`, which is `vars(self)`: one entry per instance attribute. */
  function DefinitionToJson(d: Definition): (j: Json)
    ensures j.JObject?
  {
    JObject(map[
      "media_path" := JStr(d.mediaPath),
      "wait_seconds" := JInt(d.waitSeconds),
      "random" := JBool(d.random),
      "loop" := JBool(d.loop),
      "resume_playback" := JBool(d.resumePlayback),
      "clear_display" := JBool(d.clearDisplay)])
  }

  /** An optional boolean keyword argument: its default when absent, `None` when not a boolean. */
  function BoolArgument(args: map<string, Json>, name: string, default: bool): (r: Option<bool>)
    ensures name !in args ==> r == Some(default)
    ensures name in args ==> (r.Some? <==> args[name].JBool?) && (r.Some? ==> args[name] == JBool(r.value))
  {
    if name !in args then Some(default)
    else if args[name].JBool? then Some(args[name].b)
    else None
  }

  function IntArgument(args: map<string, Json>, name: string, default: int): (r: Option<int>)
    ensures name !in args ==> r == Some(default)
    ensures name in args ==> (r.Some? <==> args[name].JInt?) && (r.Some? ==> args[name] == JInt(r.value))
  {
    if name !in args then Some(default)
    else if args[name].JInt? then Some(args[name].i)
    else None
  }

  /**
   * `PlaylistDefinition(**args)`: every key must be a parameter name,
   * `media_path` is required and the others take their defaults.
   */
  function DefinitionFromJson(args: map<string, Json>): (r: Result<Definition, DecodeError>)
    ensures !(args.Keys <= DefinitionKeys) ==> r == Err(UnexpectedArgument)
    ensures args.Keys <= DefinitionKeys && "media_path" !in args ==> r == Err(MissingArgument("media_path"))
  {
    if !(args.Keys <= DefinitionKeys) then Err(UnexpectedArgument)
    else if "media_path" !in args then Err(MissingArgument("media_path"))
    else if !args["media_path"].JStr? then Err(IllTyped("media_path"))
    else
      var wait := IntArgument(args, "wait_seconds", DefaultWaitSeconds);
      var random := BoolArgument(args, "random", DefaultRandom);
      var loop := BoolArgument(args, "loop", DefaultLoop);
      var resume := BoolArgument(args, "resume_playback", DefaultResumePlayback);
      var clear := BoolArgument(args, "clear_display", DefaultClearDisplay);
      if wait.None? then Err(IllTyped("wait_seconds"))
      else if random.None? then Err(IllTyped("random"))
      else if loop.None? then Err(IllTyped("loop"))
      else if resume.None? then Err(IllTyped("resume_playback"))
      else if clear.None? then Err(IllTyped("clear_display"))
      else Ok(Definition(args["media_path"].s, wait.value, random.value, loop.value, resume.value, clear.value))
  }

  /** The dict has exactly the six attribute names as keys. */
  lemma DefinitionJsonKeys(d: Definition)
    ensures DefinitionToJson(d).fields.Keys == DefinitionKeys
  {
  }

  /** A definition is rebuilt exactly from its `to_json` dict. */
  lemma DefinitionRoundTrip(d: Definition)
    ensures DefinitionFromJson(DefinitionToJson(d).fields) == Ok(d)
  {
    var args := DefinitionToJson(d).fields;
    DefinitionJsonKeys(d);
    assert args["media_path"] == JStr(d.mediaPath);
    assert args["wait_seconds"] == JInt(d.waitSeconds);
    assert args["random"] == JBool(d.random);
    assert args["loop"] == JBool(d.loop);
    assert args["resume_playback"] == JBool(d.resumePlayback);
    assert args["clear_display"] == JBool(d.clearDisplay);
  }

  /** Comparing `to_json` dicts, as the resume decision does, is comparing all six attributes. */
  lemma DefinitionJsonInjective(a: Definition, b: Definition)
    ensures DefinitionToJson(a) == DefinitionToJson(b) <==> a == b
  {
    if DefinitionToJson(a) == DefinitionToJson(b) {
      DefinitionRoundTrip(a);
      DefinitionRoundTrip(b);
    }
  }

  /** A playlist file that names only the media path gets every default. */
  lemma DefinitionDefaults(mediaPath: string)
    ensures DefinitionFromJson(map["media_path" := JStr(mediaPath)]) == Ok(NewDefinition(mediaPath))
  {
    var args := map["media_path" := JStr(mediaPath)];
    assert args.Keys == {"media_path"};
  }

  /**
   * What a `Playlist` holds: its definition, the file list, the index of the
   * current file and the frame within it. The index of a playlist the
   * program builds or advances is never negative.
   */
  datatype PlaylistState = PlaylistState(config: Definition, files: seq<string>, index: nat, frame: int)

  const PlaylistKeys: set<string> := {"config", "files", "index", "frame"}

  /** `Playlist.to_json`. */
  function PlaylistToJson(s: PlaylistState): (j: Json)
    ensures j.JObject?
  {
    JObject(map[
      "config" := DefinitionToJson(s.config),
      "files" := StringArray(s.files),
      "index" := JInt(s.index),
      "frame" := JInt(s.frame)])
  }

  /**
   * `Playlist(**data)` for a dict whose `config` is itself a dict, which
   * becomes `PlaylistDefinition(**config)`; `files`, `index` and `frame`
   * default to an empty list, 0 and 0.
   */
  function PlaylistFromJson(data: map<string, Json>): (r: Result<PlaylistState, DecodeError>)
    ensures !(data.Keys <= PlaylistKeys) ==> r == Err(UnexpectedArgument)
    ensures data.Keys <= PlaylistKeys && "config" !in data ==> r == Err(MissingArgument("config"))
    ensures r.Ok? ==> data["config"].JObject? && DefinitionFromJson(data["config"].fields) == Ok(r.value.config)
  {
    if !(data.Keys <= PlaylistKeys) then Err(UnexpectedArgument)
    else if "config" !in data then Err(MissingArgument("config"))
    else if !data["config"].JObject? then Err(IllTyped("config"))
    else match DefinitionFromJson(data["config"].fields)
      case Err(e) => Err(e)
      case Ok(config) =>
        var files := if "files" in data then AsStrings(data["files"]) else Some([]);
        var index := IntArgument(data, "index", 0);
        var frame := IntArgument(data, "frame", 0);
        if files.None? then Err(IllTyped("files"))
        else if index.None? || index.value < 0 then Err(IllTyped("index"))
        else if frame.None? then Err(IllTyped("frame"))
        else Ok(PlaylistState(config, files.value, index.value, frame.value))
  }

  /** The save record round-trips: files, index, frame and all six config fields come back. */
  lemma PlaylistJsonKeys(s: PlaylistState)
    ensures PlaylistToJson(s).fields.Keys == PlaylistKeys
  {
  }

  lemma PlaylistRoundTrip(s: PlaylistState)
    ensures PlaylistFromJson(PlaylistToJson(s).fields) == Ok(s)
  {
    var data := PlaylistToJson(s).fields;
    PlaylistJsonKeys(s);
    DefinitionRoundTrip(s.config);
    StringArrayRoundTrip(s.files);
    assert data["files"] == StringArray(s.files);
    assert data["index"] == JInt(s.index);
    assert data["frame"] == JInt(s.frame);
  }

  /**
   * What the generator does once the list is exhausted (models.py:94-97):
   * with `loop` it rewinds to 0 and, with `random` too, reshuffles in place;
   * without `loop` nothing changes.
   */
  function Exhausted(s: PlaylistState, draws: seq<nat>): PlaylistState
  {
    if !s.config.loop then s
    else if s.config.random then s.(index := 0, files := ListOrder.Shuffle(s.files, draws))
    else s.(index := 0)
  }

  /**
   * Exhaustion keeps the definition and the frame and permutes the files;
   * with `loop` it rewinds to 0, and the order changes only with `random` too.
   */
  lemma ExhaustedKeepsPlaylist(s: PlaylistState, draws: seq<nat>)
    ensures var r := Exhausted(s, draws);
      && r.config == s.config && r.frame == s.frame
      && |r.files| == |s.files| && multiset(r.files) == multiset(s.files)
      && (s.config.loop ==> r.index == 0)
      && (!s.config.loop || !s.config.random ==> r.files == s.files)
      && (!s.config.loop ==> r == s)
  {
    ListOrder.ShufflePermutes(s.files, draws);
  }

  /** `Playlist`: the fields that `iter` advances in place. */
  class Playlist {
    var config: Definition
    var files: seq<string>
    var index: nat
    var frame: int

    /** `Playlist(config, files, index, frame)`. */
    constructor (s: PlaylistState)
      ensures State() == s
    {
      config, files, index, frame := s.config, s.files, s.index, s.frame;
    }

    function State(): PlaylistState
      reads this
    {
      PlaylistState(config, files, index, frame)
    }

    /** `__len__`. */
    function Length(): (n: nat)
      reads this
      ensures n == |State().files|
    {
      |files|
    }

    /** `in_progress`: the generator has not run past the last file. */
    predicate InProgress()
      reads this
      ensures InProgress() <==> State().index < Length()
    {
      index < |files|
    }

    /** `to_json`: a record from which `Playlist(**data)` rebuilds this state. */
    function ToJson(): (j: Json)
      reads this
      ensures j.JObject? && PlaylistFromJson(j.fields) == Ok(State())
    {
      PlaylistRoundTrip(State());
      PlaylistToJson(State())
    }

    /**
     * The `while` test of `iter` (models.py:91-92): while the index is in
     * range the generator yields `files[index]` without moving.
     */
    method Poll() returns (item: Option<string>)
      ensures item == if index < |files| then Some(files[index]) else None
    {
      if index < |files| {
        item := Some(files[index]);
      } else {
        item := None;
      }
    }

    /** Resuming the generator after a yield: the increment of models.py:93. */
    method Step()
      requires index < |files|
      modifies this
      ensures State() == old(State()).(index := old(index) + 1)
    {
      index := index + 1;
    }

    /**
     * The code after the generator's loop (models.py:94-97), which runs in
     * the same `next` call that then ends the iteration; `draws` are the
     * random numbers of its shuffle.
     */
    method Exhaust(draws: seq<nat>)
      requires index >= |files|
      modifies this
      ensures State() == Exhausted(old(State()), draws)
    {
      if config.loop {
        index := 0;
        if config.random {
          files := ListOrder.Shuffle(files, draws);
        }
      }
    }
  }
}
