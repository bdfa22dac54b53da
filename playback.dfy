/**
 * paperframe/playlist.py: building the catalog, loading and validating the
 * save, deciding whether to resume, and the playback loop that shows one
 * file per step, saves after every step and waits out the rest of the
 * step's time budget.
 */
module Playback {
  import opened Wrappers
  import opened JsonValues
  import opened MediaTypes
  import ListOrder
  import opened PlaylistModels
  import opened VideoInfoCache
  import opened Effects

  /**
   * Everything playback learns from outside, as tables over the inputs a
   * run can ask about: the file system, what the image loader returns for
   * a path (a path outside the table fails to load), the probe, the frame
   * that extraction returns for a path, its video information and a frame
   * index, the seconds each step number takes and the random numbers of a
   * reshuffle made at a given step number (none recorded: 0 seconds, no
   * draws).
   */
  datatype World = World(
    fs: FileSystem,
    images: map<string, Image>,
    probes: map<string, ProbeReport>,
    frames: map<(string, VideoInfo, int), Image>,
    elapsed: map<nat, nat>,
    draws: map<nat, seq<nat>>)

  function LoadImage(w: World, f: string): Option<Image>
  {
    if f in w.images then Some(w.images[f]) else None
  }

  function FrameAt(w: World, f: string, info: VideoInfo, frame: int): Option<Image>
  {
    if (f, info, frame) in w.frames then Some(w.frames[(f, info, frame)]) else None
  }

  function Elapsed(w: World, n: nat): nat
  {
    if n in w.elapsed then w.elapsed[n] else 0
  }

  function Draws(w: World, n: nat): seq<nat>
  {
    if n in w.draws then w.draws[n] else []
  }

  // ---------------------------------------------------------------- load_media

  /** The comprehension of playlist.py:49: the directory entries that are valid media, in listing order. */
  function MediaEntries(fs: FileSystem, entries: seq<string>): (r: seq<string>)
    ensures forall x :: x in r ==> IsValidMedia(fs, x)
    ensures forall x :: multiset(r)[x] == if IsValidMedia(fs, x) then multiset(entries)[x] else 0
  {
    if entries == [] then []
    else
      var rest := MediaEntries(fs, entries[1..]);
      assert entries == [entries[0]] + entries[1..];
      if IsValidMedia(fs, entries[0]) then [entries[0]] + rest else rest
  }

  /** The list that playlist.py:45-49 builds: the path itself if it is a file, a directory's valid media, or nothing. */
  function Found(fs: FileSystem, mediaPath: string): seq<string>
  {
    if IsFile(fs, mediaPath) then [mediaPath]
    else if IsDir(fs, mediaPath) then MediaEntries(fs, fs[mediaPath].entries)
    else []
  }

  /** The sort key of playlist.py:53, `lambda f: f.name`. */
  const ByName: string -> string := f => Name(f)

  /** `load_media`: the found list, shuffled with `draws` or sorted by file name. */
  function LoadMedia(fs: FileSystem, mediaPath: string, randomOrder: bool, draws: seq<nat>): (r: seq<string>)
    ensures !randomOrder ==> ListOrder.SortedBy(r, ByName)
  {
    var found := Found(fs, mediaPath);
    if randomOrder then ListOrder.Shuffle(found, draws) else ListOrder.SortBy(found, ByName)
  }

  /** Ordering the catalog neither adds nor drops an entry. */
  lemma LoadMediaPermutes(fs: FileSystem, mediaPath: string, randomOrder: bool, draws: seq<nat>)
    ensures multiset(LoadMedia(fs, mediaPath, randomOrder, draws)) == multiset(Found(fs, mediaPath))
  {
    ListOrder.ShufflePermutes(Found(fs, mediaPath), draws);
  }

  /**
   * A file is the whole catalog, whatever its type; a path that is neither
   * a file nor a directory gives an empty one; a directory gives each of
   * its valid media as often as it is listed.
   */
  lemma LoadMediaCatalog(fs: FileSystem, mediaPath: string, randomOrder: bool, draws: seq<nat>)
    ensures var r := LoadMedia(fs, mediaPath, randomOrder, draws);
      && (IsFile(fs, mediaPath) ==> r == [mediaPath])
      && (!IsFile(fs, mediaPath) && !IsDir(fs, mediaPath) ==> r == [])
      && (IsDir(fs, mediaPath) ==>
            forall x :: multiset(r)[x] == if IsValidMedia(fs, x) then multiset(fs[mediaPath].entries)[x] else 0)
  {
    var r := LoadMedia(fs, mediaPath, randomOrder, draws);
    LoadMediaPermutes(fs, mediaPath, randomOrder, draws);
    if IsFile(fs, mediaPath) {
      assert multiset(r)[mediaPath] == 1;
      assert |r| == 1;
    } else if !IsDir(fs, mediaPath) {
      assert |r| == 0;
    }
  }

  /** A directory catalog holds each valid child once when the listing has no repeats. */
  lemma LoadMediaNoDuplicates(fs: FileSystem, dir: string, randomOrder: bool, draws: seq<nat>, x: string)
    requires IsDir(fs, dir)
    requires multiset(fs[dir].entries)[x] <= 1
    ensures multiset(LoadMedia(fs, dir, randomOrder, draws))[x] == if x in fs[dir].entries && IsValidMedia(fs, x) then 1 else 0
  {
    LoadMediaCatalog(fs, dir, randomOrder, draws);
    assert x in fs[dir].entries <==> multiset(fs[dir].entries)[x] > 0;
  }

  // ---------------------------------------------------------------- __load_save

  /**
   * `__load_save`: no save file and a save whose `config` is None or not a
   * dict both mean "no save"; a save that is not a dict, lacks `config` or
   * does not fit `Playlist(**data)` raises.
   */
  function LoadSave(content: Option<Json>): (r: Result<Option<PlaylistState>, DecodeError>)
    ensures content.None? ==> r == Ok(None)
    ensures content.Some? && !content.value.JObject? ==> r == Err(NotADict)
    ensures content.Some? && content.value.JObject? && "config" !in content.value.fields ==> r == Err(MissingKey("config"))
    ensures content.Some? && content.value.JObject? && "config" in content.value.fields ==>
      (!content.value.fields["config"].JObject? ==> r == Ok(None))
    ensures r.Ok? && r.value.Some? ==>
      content.Some? && content.value.JObject? && PlaylistFromJson(content.value.fields) == Ok(r.value.value)
    ensures content.Some? && content.value.JObject? && "config" in content.value.fields && content.value.fields["config"].JObject? ==>
      (PlaylistFromJson(content.value.fields).Err? ==> r == Err(PlaylistFromJson(content.value.fields).error))
      && (PlaylistFromJson(content.value.fields).Ok? ==> r == Ok(Some(PlaylistFromJson(content.value.fields).value)))
  {
    match content
    case None => Ok(None)
    case Some(data) =>
      if !data.JObject? then Err(NotADict)
      else if "config" !in data.fields then Err(MissingKey("config"))
      else if !data.fields["config"].JObject? then Ok(None)
      else match PlaylistFromJson(data.fields)
        case Err(e) => Err(e)
        case Ok(s) => Ok(Some(s))
  }

  /** What a step saves is loaded back unchanged. */
  lemma SaveRoundTrip(s: PlaylistState)
    ensures LoadSave(Some(PlaylistToJson(s))) == Ok(Some(s))
  {
    PlaylistRoundTrip(s);
  }

  // ---------------------------------------------------------------- init_playlist

  /** The playlist built when not resuming: index 0, frame 0 and a fresh catalog. */
  function FreshPlaylist(fs: FileSystem, def: Definition, draws: seq<nat>): PlaylistState
  {
    PlaylistState(def, LoadMedia(fs, def.mediaPath, def.random, draws), 0, 0)
  }

  /**
   * `init_playlist`: the saved playlist is returned only if there is one,
   * its config asks to resume and it equals the current definition;
   * otherwise a fresh playlist. A save that raises aborts.
   */
  function InitPlaylist(save: Option<Json>, def: Definition, fs: FileSystem, draws: seq<nat>): (r: Result<PlaylistState, DecodeError>)
    ensures LoadSave(save).Err? ==> r == Err(LoadSave(save).error)
    ensures LoadSave(save).Ok? ==> r.Ok?
    ensures LoadSave(save).Ok? && LoadSave(save).value.Some? && LoadSave(save).value.value.config == def && def.resumePlayback
            ==> r == Ok(LoadSave(save).value.value)
    ensures LoadSave(save).Ok? && !(LoadSave(save).value.Some? && LoadSave(save).value.value.config == def && def.resumePlayback)
            ==> r == Ok(FreshPlaylist(fs, def, draws))
  {
    match LoadSave(save)
    case Err(e) => Err(e)
    case Ok(saved) =>
      if saved.Some? && saved.value.config.resumePlayback then
        DefinitionJsonInjective(saved.value.config, def);
        if DefinitionToJson(saved.value.config) == DefinitionToJson(def) then Ok(saved.value)
        else Ok(FreshPlaylist(fs, def, draws))
      else
        Ok(FreshPlaylist(fs, def, draws))
  }

  /** A playlist saved under the same resuming definition comes back with its files, index and frame. */
  lemma ResumeRestoresSavedPosition(s: PlaylistState, fs: FileSystem, draws: seq<nat>)
    requires s.config.resumePlayback
    ensures InitPlaylist(Some(PlaylistToJson(s)), s.config, fs, draws) == Ok(s)
  {
    SaveRoundTrip(s);
  }

  /** A save whose definition differs from the current one is ignored. */
  lemma ChangedDefinitionStartsFresh(s: PlaylistState, def: Definition, fs: FileSystem, draws: seq<nat>)
    requires s.config != def
    ensures InitPlaylist(Some(PlaylistToJson(s)), def, fs, draws) == Ok(FreshPlaylist(fs, def, draws))
  {
    SaveRoundTrip(s);
  }

  // ---------------------------------------------------------------- one step

  /**
   * The image a step obtains for file f (playlist.py:88-99): an image file
   * goes through the loader, a video through the probe and frame
   * extraction at the playlist's frame; anything else yields none.
   */
  function StepImage(w: World, f: string, frame: int): (r: Option<Image>)
    ensures !IsValidMedia(w.fs, f) ==> r.None?
    ensures IsImage(w.fs, f) ==> r == LoadImage(w, f)
    ensures IsVideo(w.fs, f) ==> r == match Probe(w.probes, f) { case None => None case Some(p) => FrameAt(w, f, InfoOf(p), frame) }
  {
    ImageAndVideoDisjoint(w.fs, f);
    var loaded := if IsImage(w.fs, f) then LoadImage(w, f) else None;
    if IsVideo(w.fs, f) then
      match Probe(w.probes, f)
      case None => loaded
      case Some(p) => FrameAt(w, f, InfoOf(p), frame)
    else loaded
  }

  /**
   * t followed by the events of one step: prepare, display and sleep only
   * when an image was obtained, then the save and the wait in every case.
   */
  function AfterStep(t: seq<Event>, image: Option<Image>, record: Json, delay: int): seq<Event>
  {
    (if image.Some? then t + [Event.Prepare] + [Event.Display(image.value)] + [Event.Sleep] else t)
    + [Save(record)] + [Wait(delay)]
  }

  /** A step never clears the save. */
  lemma StepNeverClears(t: seq<Event>, image: Option<Image>, record: Json, delay: int)
    ensures (ClearSave in AfterStep(t, image, record, delay)) <==> (ClearSave in t)
  {
  }

  /** A step saves exactly its record. */
  lemma StepSaves(t: seq<Event>, image: Option<Image>, record: Json, delay: int)
    ensures Saves(AfterStep(t, image, record, delay)) == Saves(t) + [record]
  {
    var h := if image.Some? then t + [Event.Prepare] + [Event.Display(image.value)] + [Event.Sleep] else t;
    if image.Some? {
      SavesSnoc(t, Event.Prepare);
      SavesSnoc(t + [Event.Prepare], Event.Display(image.value));
      SavesSnoc(t + [Event.Prepare] + [Event.Display(image.value)], Event.Sleep);
    }
    SavesSnoc(h, Save(record));
    SavesSnoc(h + [Save(record)], Wait(delay));
  }

  /** A step displays exactly the image it obtained. */
  lemma StepShows(t: seq<Event>, image: Option<Image>, record: Json, delay: int)
    ensures Shown(AfterStep(t, image, record, delay)) == Shown(t) + if image.Some? then [image.value] else []
  {
    var h := if image.Some? then t + [Event.Prepare] + [Event.Display(image.value)] + [Event.Sleep] else t;
    if image.Some? {
      ShownSnoc(t, Event.Prepare);
      ShownSnoc(t + [Event.Prepare], Event.Display(image.value));
      ShownSnoc(t + [Event.Prepare] + [Event.Display(image.value)], Event.Sleep);
    }
    ShownSnoc(h, Save(record));
    ShownSnoc(h + [Save(record)], Wait(delay));
  }

  // ---------------------------------------------------------------- one pass

  /** How many steps a pass over the remaining files takes. */
  function PassLength(s: PlaylistState): nat
  {
    if s.index < |s.files| then |s.files| - s.index else 0
  }

  /** The state after a pass: run off the end of the list, then the generator's exhaustion code. */
  function AfterPass(s: PlaylistState, draws: seq<nat>): PlaylistState
  {
    Exhausted(s.(index := if s.index < |s.files| then |s.files| else s.index), draws)
  }

  /** What each of the first k steps of a pass from s obtains for its file. */
  function PassImages(w: World, s: PlaylistState, k: nat): (r: seq<Option<Image>>)
    requires k == 0 || s.index + k <= |s.files|
    ensures |r| == k
    decreases k
  {
    if k == 0 then [] else PassImages(w, s, k - 1) + [CurrentImage(w, s.(index := s.index + k - 1))]
  }

  /** Step j of a pass from s obtains what `StepImage` says for the file at `s.index + j`. */
  lemma {:induction false} PassImagesAt(w: World, s: PlaylistState, k: nat, j: nat)
    requires s.index + k <= |s.files| && j < k
    ensures PassImages(w, s, k)[j] == StepImage(w, s.files[s.index + j], s.frame)
    decreases k
  {
    if j < k - 1 {
      PassImagesAt(w, s, k - 1, j);
    }
  }

  /** What each of the first k steps of a pass from s saves: the playlist positioned at its file. */
  function PassRecords(s: PlaylistState, k: nat): (r: seq<Json>)
    ensures |r| == k
    decreases k
  {
    if k == 0 then [] else PassRecords(s, k - 1) + [PlaylistToJson(s.(index := s.index + k - 1))]
  }

  /** The record of step j of a pass from s is the playlist positioned at index `s.index + j`. */
  lemma {:induction false} PassRecordsAt(s: PlaylistState, k: nat, j: nat)
    requires j < k
    ensures PassRecords(s, k)[j] == PlaylistToJson(s.(index := s.index + j))
    decreases k
  {
    if j < k - 1 {
      PassRecordsAt(s, k - 1, j);
    }
  }

  /** What the step that plays the current file of s obtains. */
  function CurrentImage(w: World, s: PlaylistState): Option<Image>
    requires s.index < |s.files|
  {
    StepImage(w, s.files[s.index], s.frame)
  }

  /** t followed by the events of the step that plays the current file of s as step number n. */
  function StepAt(t: seq<Event>, w: World, s: PlaylistState, n: nat): seq<Event>
    requires s.index < |s.files|
  {
    AfterStep(t, CurrentImage(w, s), PlaylistToJson(s), Delay(s.config.waitSeconds, Elapsed(w, n)))
  }

  /** The step at s, after events that saved some records, saves the playlist s after them. */
  lemma SavesStepAt(t: seq<Event>, prev: seq<Event>, w: World, s: PlaylistState, n: nat, records: seq<Json>)
    requires s.index < |s.files|
    requires Saves(prev) == Saves(t) + records
    ensures Saves(StepAt(prev, w, s, n)) == Saves(t) + (records + [PlaylistToJson(s)])
  {
    StepSaves(prev, CurrentImage(w, s), PlaylistToJson(s), Delay(s.config.waitSeconds, Elapsed(w, n)));
    AppendAssoc(Saves(t), records, [PlaylistToJson(s)]);
  }

  /** The step at s, after events that showed some images, shows what it obtained after them. */
  lemma ShownStepAt(t: seq<Event>, prev: seq<Event>, w: World, s: PlaylistState, n: nat, images: seq<Option<Image>>)
    requires s.index < |s.files|
    requires Shown(prev) == Shown(t) + Present(images)
    ensures Shown(StepAt(prev, w, s, n)) == Shown(t) + Present(images + [CurrentImage(w, s)])
  {
    var x := CurrentImage(w, s);
    StepShows(prev, x, PlaylistToJson(s), Delay(s.config.waitSeconds, Elapsed(w, n)));
    PresentSnoc(images, x);
    AppendAssoc(Shown(t), Present(images), if x.Some? then [x.value] else []);
  }

  /** t followed by the events of the first k steps of a pass that starts at s with step number step0. */
  function PassTrace(t: seq<Event>, w: World, s: PlaylistState, step0: nat, k: nat): seq<Event>
    requires k == 0 || s.index + k <= |s.files|
    decreases k
  {
    if k == 0 then t else StepAt(PassTrace(t, w, s, step0, k - 1), w, s.(index := s.index + k - 1), step0 + k - 1)
  }

  /**
   * Every step saves, and the j-th save of a pass records index
   * `s.index + j`: the position of the file just shown.
   */
  lemma {:induction false} PassSaves(t: seq<Event>, w: World, s: PlaylistState, step0: nat, k: nat)
    requires k == 0 || s.index + k <= |s.files|
    ensures Saves(PassTrace(t, w, s, step0, k)) == Saves(t) + PassRecords(s, k)
    decreases k
  {
    if k > 0 {
      PassSaves(t, w, s, step0, k - 1);
      SavesStepAt(t, PassTrace(t, w, s, step0, k - 1), w, s.(index := s.index + k - 1), step0 + k - 1, PassRecords(s, k - 1));
    }
  }

  /** A pass displays exactly the images its steps obtained, in order. */
  lemma {:induction false} PassShowsObtained(t: seq<Event>, w: World, s: PlaylistState, step0: nat, k: nat)
    requires k == 0 || s.index + k <= |s.files|
    ensures Shown(PassTrace(t, w, s, step0, k)) == Shown(t) + Present(PassImages(w, s, k))
    decreases k
  {
    if k > 0 {
      PassShowsObtained(t, w, s, step0, k - 1);
      ShownStepAt(t, PassTrace(t, w, s, step0, k - 1), w, s.(index := s.index + k - 1), step0 + k - 1, PassImages(w, s, k - 1));
    }
  }

  /** A pass never clears the save. */
  lemma {:induction false} PassNeverClears(t: seq<Event>, w: World, s: PlaylistState, step0: nat, k: nat)
    requires k == 0 || s.index + k <= |s.files|
    ensures (ClearSave in PassTrace(t, w, s, step0, k)) <==> (ClearSave in t)
    decreases k
  {
    if k > 0 {
      var c := s.(index := s.index + k - 1);
      PassNeverClears(t, w, s, step0, k - 1);
      StepNeverClears(PassTrace(t, w, s, step0, k - 1), CurrentImage(w, c), PlaylistToJson(c),
                      Delay(c.config.waitSeconds, Elapsed(w, step0 + k - 1)));
    }
  }

  /**
   * The body of one iteration of `__play_media_files` for the current file
   * f, run as step number n: show what can be obtained for f, save the
   * playlist, then wait out the rest of the step.
   */
  method PlayStep(p: Playlist, io: Io, cache: VideoCache, w: World, n: nat)
    requires p.index < |p.files|
    requires Agrees(cache.entries, w.probes)
    modifies io, cache
    ensures io.trace == StepAt(old(io.trace), w, p.State(), n)
    ensures io.saveFile == Some(PlaylistToJson(p.State()))
    ensures Agrees(cache.entries, w.probes)
  {
    var f := p.files[p.index];
    var image: Option<Image> := None;
    if IsImage(w.fs, f) {
      image := LoadImage(w, f);
    }
    if IsVideo(w.fs, f) {
      var info := cache.GetVideoInfo(f, w.probes);
      if info.Some? {
        image := FrameAt(w, f, info.value, p.frame);
      }
    }
    assert image == StepImage(w, f, p.frame) by {
      ImageAndVideoDisjoint(w.fs, f);
    }
    if image.Some? {
      io.Prepare();
      io.Display(image.value);
      io.Sleep();
    }
    var record := p.ToJson();
    io.WriteSave(record);
    io.Wait(Delay(p.config.waitSeconds, Elapsed(w, n)));
  }

  /** Where playback stands between passes: the playlist and the number of the next step. */
  datatype Cursor = Cursor(state: PlaylistState, step: nat)

  /** One more pass from c, with the reshuffle at its end drawn at the step number reached. */
  function NextPass(w: World, c: Cursor): Cursor
  {
    var k := PassLength(c.state);
    Cursor(AfterPass(c.state, Draws(w, c.step + k)), c.step + k)
  }

  /** t followed by the events of the pass that starts at c. */
  function PassEvents(t: seq<Event>, w: World, c: Cursor): seq<Event>
  {
    PassTrace(t, w, c.state, c.step, PassLength(c.state))
  }

  /**
   * One turn of the `for` loop of `__play_media_files`: play the k-th file of
   * the pass that started at s0, which the generator has just yielded, then
   * resume the generator, which moves on and yields the next file if any.
   */
  method PlayNext(p: Playlist, io: Io, cache: VideoCache, w: World, step0: nat, k: nat,
                  ghost s0: PlaylistState, ghost t0: seq<Event>) returns (item: Option<string>)
    requires s0.index + k < |s0.files| && p.State() == s0.(index := s0.index + k)
    requires io.trace == PassTrace(t0, w, s0, step0, k)
    requires Agrees(cache.entries, w.probes)
    modifies p, io, cache
    ensures p.State() == s0.(index := s0.index + k + 1)
    ensures item == if s0.index + k + 1 < |s0.files| then Some(s0.files[s0.index + k + 1]) else None
    ensures io.trace == PassTrace(t0, w, s0, step0, k + 1)
    ensures io.saveFile == Some(PlaylistToJson(s0.(index := s0.index + k)))
    ensures Agrees(cache.entries, w.probes)
  {
    PlayStep(p, io, cache, w, step0 + k);
    p.Step();
    item := p.Poll();
  }

  /**
   * The `for` loop of `__play_media_files` up to the generator's last
   * yield: one step per remaining file, after which the index has run off
   * the end of the list.
   */
  method PlayRemaining(p: Playlist, io: Io, cache: VideoCache, w: World, step0: nat) returns (steps: nat)
    requires Agrees(cache.entries, w.probes)
    modifies p, io, cache
    ensures steps == PassLength(old(p.State()))
    ensures p.State() == old(p.State()).(index := old(p.index) + steps)
    ensures io.trace == PassTrace(old(io.trace), w, old(p.State()), step0, steps)
    ensures io.saveFile == if steps == 0 then old(io.saveFile)
                           else Some(PlaylistToJson(old(p.State()).(index := old(p.index) + steps - 1)))
    ensures Agrees(cache.entries, w.probes)
  {
    ghost var s0 := p.State();
    ghost var t0 := io.trace;
    steps := 0;
    var item := p.Poll();
    while item.Some?
      invariant p.State() == s0.(index := s0.index + steps)
      invariant item == if s0.index + steps < |s0.files| then Some(s0.files[s0.index + steps]) else None
      invariant item.None? ==> steps == PassLength(s0)
      invariant io.trace == PassTrace(t0, w, s0, step0, steps)
      invariant io.saveFile == if steps == 0 then old(io.saveFile) else Some(PlaylistToJson(s0.(index := s0.index + steps - 1)))
      invariant Agrees(cache.entries, w.probes)
      decreases |s0.files| - s0.index - steps
    {
      item := PlayNext(p, io, cache, w, step0, steps, s0, t0);
      steps := steps + 1;
    }
  }

  /**
   * `__play_media_files`: one pass of the generator, one step per remaining
   * file and then the generator's exhaustion code, leaving playback where
   * `NextPass` says with the events of `PassEvents`; the save file then
   * holds the position of the last file played.
   */
  method PlayMediaFiles(p: Playlist, io: Io, cache: VideoCache, w: World, step0: nat) returns (steps: nat)
    requires Agrees(cache.entries, w.probes)
    modifies p, io, cache
    ensures steps == PassLength(old(p.State()))
    ensures Cursor(p.State(), step0 + steps) == NextPass(w, Cursor(old(p.State()), step0))
    ensures io.trace == PassEvents(old(io.trace), w, Cursor(old(p.State()), step0))
    ensures io.saveFile == if steps == 0 then old(io.saveFile)
                           else Some(PlaylistToJson(old(p.State()).(index := old(p.index) + steps - 1)))
    ensures steps > 0 ==> io.saveFile == LastSave(io.trace)
    ensures p.config == old(p.config)
    ensures Agrees(cache.entries, w.probes)
  {
    ghost var s0 := p.State();
    ghost var t0 := io.trace;
    steps := PlayRemaining(p, io, cache, w, step0);
    p.Exhaust(Draws(w, step0 + steps));
    if steps > 0 {
      PassSaves(t0, w, s0, step0, steps);
      PassRecordsAt(s0, steps, steps - 1);
    }
  }

  // ---------------------------------------------------------------- start_playback

  datatype PlaybackError =
    | EmptyPlaylist          // start_playback on a playlist with no files
    | SaveFileMissing        // unlink() of an absent save file
    | NoClearImageAttribute  // `playlist.config.clear_image` does not exist

  datatype Outcome = Interrupted | Raised(error: PlaybackError)

  /** Where the first n passes of the `while True` of start_playback leave playback. */
  function Run(w: World, s: PlaylistState, step0: nat, n: nat): Cursor
    decreases n
  {
    if n == 0 then Cursor(s, step0) else NextPass(w, Run(w, s, step0, n - 1))
  }

  /** t followed by the events of the first n passes. */
  function RunTrace(t: seq<Event>, w: World, s: PlaylistState, step0: nat, n: nat): seq<Event>
    decreases n
  {
    if n == 0 then t else PassEvents(RunTrace(t, w, s, step0, n - 1), w, Run(w, s, step0, n - 1))
  }

  /** Looping never clears the save: only the end of a run without `loop` does. */
  lemma {:induction false} RunNeverClears(t: seq<Event>, w: World, s: PlaylistState, step0: nat, n: nat)
    ensures (ClearSave in RunTrace(t, w, s, step0, n)) <==> (ClearSave in t)
    decreases n
  {
    if n > 0 {
      var c := Run(w, s, step0, n - 1);
      RunNeverClears(t, w, s, step0, n - 1);
      PassNeverClears(RunTrace(t, w, s, step0, n - 1), w, c.state, c.step, PassLength(c.state));
    }
  }

  /** With `loop`, a pass from a non-empty playlist ends back at index 0 with the files permuted. */
  lemma LoopingPass(w: World, c: Cursor)
    requires c.state.config.loop && |c.state.files| > 0
    ensures var q := NextPass(w, c);
      && q.state.index == 0 && q.state.config == c.state.config && q.state.frame == c.state.frame
      && multiset(q.state.files) == multiset(c.state.files)
      && q.step == c.step + PassLength(c.state)
  {
    var k := PassLength(c.state);
    ExhaustedKeepsPlaylist(c.state.(index := if c.state.index < |c.state.files| then |c.state.files| else c.state.index),
                           Draws(w, c.step + k));
  }

  /**
   * With `loop` on a non-empty playlist every pass after the first replays
   * the whole list from index 0; the list stays a permutation of itself.
   */
  lemma {:induction false} LoopingRun(w: World, s: PlaylistState, step0: nat, n: nat)
    requires s.config.loop && |s.files| > 0 && n > 0
    ensures var c := Run(w, s, step0, n);
      && c.state.index == 0 && c.state.config == s.config && c.state.frame == s.frame
      && multiset(c.state.files) == multiset(s.files)
      && c.step == step0 + PassLength(s) + (n - 1) * |s.files|
    decreases n
  {
    if n == 1 {
      LoopingPass(w, Run(w, s, step0, 0));
    } else {
      LoopingRun(w, s, step0, n - 1);
      var c := Run(w, s, step0, n - 1);
      var len := |s.files|;
      assert |c.state.files| == len by {
        assert |c.state.files| == |multiset(c.state.files)|;
      }
      LoopingPass(w, c);
      assert PassLength(c.state) == len;
      assert (n - 2) * len + len == (n - 1) * len;
    }
  }

  /** Without `loop` the single pass leaves the playlist no longer in progress, with its files unchanged. */
  lemma SinglePassFinishes(w: World, s: PlaylistState, step0: nat)
    requires !s.config.loop
    ensures var c := Run(w, s, step0, 1);
      && c.state.index >= |s.files| && c.state.files == s.files
      && c.step == step0 + PassLength(s)
  {
    ExhaustedKeepsPlaylist(s.(index := if s.index < |s.files| then |s.files| else s.index), Draws(w, step0 + PassLength(s)));
  }

  /** Pass number `done` of a run from s0 whose earlier passes extended t0 to the trace so far. */
  method PlayPass(p: Playlist, io: Io, cache: VideoCache, w: World, step: nat,
                  ghost s0: PlaylistState, ghost done: nat, ghost t0: seq<Event>) returns (n: nat)
    requires Cursor(p.State(), step) == Run(w, s0, 0, done)
    requires io.trace == RunTrace(t0, w, s0, 0, done)
    requires Agrees(cache.entries, w.probes)
    modifies p, io, cache
    ensures Cursor(p.State(), step + n) == Run(w, s0, 0, done + 1)
    ensures io.trace == RunTrace(t0, w, s0, 0, done + 1)
    ensures p.config == old(p.config)
    ensures n == 0 ==> io.saveFile == old(io.saveFile) && io.trace == old(io.trace)
    ensures n > 0 ==> io.saveFile.Some? && io.saveFile == LastSave(io.trace)
    ensures Agrees(cache.entries, w.probes)
  {
    n := PlayMediaFiles(p, io, cache, w, step);
  }

  /**
   * The `while True` of `start_playback`: a pass of `__play_media_files`,
   * repeated while `config.loop` holds, until the external interrupt that a
   * budget of `passes` stands for. It returns how many passes ran and the
   * number of steps they took, and leaves playback where `Run` says.
   */
  method PlayPasses(p: Playlist, io: Io, cache: VideoCache, w: World, passes: nat) returns (done: nat, step: nat)
    requires Agrees(cache.entries, w.probes)
    modifies p, io, cache
    ensures done == if p.config.loop || passes == 0 then passes else 1
    ensures Cursor(p.State(), step) == Run(w, old(p.State()), 0, done)
    ensures io.trace == RunTrace(old(io.trace), w, old(p.State()), 0, done)
    ensures p.config == old(p.config)
    ensures step == 0 ==> io.saveFile == old(io.saveFile)
    ensures step > 0 ==> io.saveFile.Some? && io.saveFile == LastSave(io.trace)
    ensures Agrees(cache.entries, w.probes)
  {
    ghost var s0 := p.State();
    ghost var t0 := io.trace;
    step := 0;
    done := 0;
    while done < passes
      invariant done <= passes
      invariant Cursor(p.State(), step) == Run(w, s0, 0, done)
      invariant io.trace == RunTrace(t0, w, s0, 0, done)
      invariant p.config == s0.config
      invariant !s0.config.loop ==> done == 0
      invariant step == 0 ==> io.saveFile == old(io.saveFile)
      invariant step > 0 ==> io.saveFile.Some? && io.saveFile == LastSave(io.trace)
      invariant Agrees(cache.entries, w.probes)
      decreases passes - done
    {
      var n := PlayPass(p, io, cache, w, step, s0, done, t0);
      step := step + n;
      done := done + 1;
      if !p.config.loop {
        break;
      }
    }
  }

  /**
   * `start_playback`: raises on an empty playlist before any display; with
   * `loop` it repeats passes until the external interrupt, modelled as a
   * budget of `passes`; without it one pass runs, the save is removed and
   * the lookup of `config.clear_image` raises.
   */
  method StartPlayback(p: Playlist, io: Io, cache: VideoCache, w: World, passes: nat) returns (outcome: Outcome)
    requires Agrees(cache.entries, w.probes)
    modifies p, io, cache
    ensures old(p.Length()) == 0 ==>
      outcome == Raised(EmptyPlaylist) && io.trace == old(io.trace) && p.State() == old(p.State())
      && io.saveFile == old(io.saveFile) && cache.entries == old(cache.entries) && cache.probed == old(cache.probed)
    ensures old(p.Length()) > 0 && (p.config.loop || passes == 0) ==>
      outcome == Interrupted && p.State() == Run(w, old(p.State()), 0, passes).state
      && io.trace == RunTrace(old(io.trace), w, old(p.State()), 0, passes)
      && io.saveFile == if Run(w, old(p.State()), 0, passes).step == 0 then old(io.saveFile) else LastSave(io.trace)
    ensures old(p.Length()) > 0 && !p.config.loop && passes > 0 ==>
      var c := Run(w, old(p.State()), 0, 1);
      var saved := c.step > 0 || old(io.saveFile).Some?;
      && p.State() == c.state && io.saveFile == None
      && outcome == Raised(if saved then NoClearImageAttribute else SaveFileMissing)
      && io.trace == RunTrace(old(io.trace), w, old(p.State()), 0, 1) + (if saved then [ClearSave] else [])
  {
    if p.Length() == 0 {
      return Raised(EmptyPlaylist);
    }
    var done, step := PlayPasses(p, io, cache, w, passes);
    if p.config.loop || passes == 0 {
      return Interrupted;
    }
    var removed := io.RemoveSave();
    if !removed {
      return Raised(SaveFileMissing);
    }
    outcome := Raised(NoClearImageAttribute);
  }
}
