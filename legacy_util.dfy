/**
 * The older `src/` tree's command-line checks (src/util.py) and the
 * display modes they check against. `Mode` is the enumeration that
 * paper-frame.py and src/job.py use by name (IMAGE, VIDEO, ALBUM,
 * PLAYLIST); src/constants.py, which both import it from, does not define
 * it, nor `VALID_IMAGE_TYPES`, so the image list is a parameter here.
 */
module LegacyUtil {
  import opened Wrappers
  import MediaTypes

  datatype Mode = IMAGE | VIDEO | ALBUM | PLAYLIST

  /** `Mode.name`. */
  function ModeName(m: Mode): string
  {
    match m
    case IMAGE => "IMAGE"
    case VIDEO => "VIDEO"
    case ALBUM => "ALBUM"
    case PLAYLIST => "PLAYLIST"
  }

  /** `str.upper()` on one character, for the ASCII letters. */
  function UpperChar(c: char): char
  {
    if 'a' <= c <= 'z' then c - 'a' + 'A' else c
  }

  function LowerChar(c: char): char
  {
    if 'A' <= c <= 'Z' then c - 'A' + 'a' else c
  }

  function Upper(s: string): (r: string)
    ensures |r| == |s|
  {
    if s == [] then [] else [UpperChar(s[0])] + Upper(s[1..])
  }

  function Lower(s: string): (r: string)
    ensures |r| == |s|
  {
    if s == [] then [] else [LowerChar(s[0])] + Lower(s[1..])
  }

  /** Upper-casing twice is upper-casing once. */
  lemma {:induction false} UpperIdempotent(s: string)
    ensures Upper(Upper(s)) == Upper(s)
  {
    if s != [] {
      UpperIdempotent(s[1..]);
      assert Upper(s)[1..] == Upper(s[1..]);
    }
  }

  /** Upper-casing the lower-case spelling gives back a word that has no lower-case letters. */
  lemma {:induction false} UpperOfLower(s: string)
    requires forall k :: 0 <= k < |s| ==> !('a' <= s[k] <= 'z')
    ensures Upper(Lower(s)) == s
  {
    if s != [] {
      UpperOfLower(s[1..]);
      assert Lower(s)[1..] == Lower(s[1..]);
      assert s == [s[0]] + s[1..];
    }
  }

  /**
   * `Mode[name.upper()]`: the enumeration member whose name is the
   * upper-cased text, or `None` where Python raises `KeyError`.
   */
  function ParseMode(name: string): (r: Option<Mode>)
    ensures r.Some? ==> ModeName(r.value) == Upper(name)
    ensures r.None? <==> forall m: Mode :: ModeName(m) != Upper(name)
  {
    var u := Upper(name);
    if u == "IMAGE" then Some(IMAGE)
    else if u == "VIDEO" then Some(VIDEO)
    else if u == "ALBUM" then Some(ALBUM)
    else if u == "PLAYLIST" then Some(PLAYLIST)
    else None
  }

  /** The lookup ignores case: any spelling parses as its upper-cased form does. */
  lemma ParseModeIgnoresCase(name: string)
    ensures ParseMode(name) == ParseMode(Upper(name))
  {
    UpperIdempotent(name);
  }

  /**
   * A mode's name, as the state file stores it, and its lower-case
   * spelling, as the command line offers it, both parse back to the mode.
   */
  lemma ParseModeNames(m: Mode)
    ensures ParseMode(ModeName(m)) == Some(m)
    ensures ParseMode(Lower(ModeName(m))) == Some(m)
  {
    UpperOfLower(ModeName(m));
    UpperIdempotent(Lower(ModeName(m)));
  }

  /** A Path argument that may be `None` (`--dir` or `--file` not given). Paths are normalised strings. */
  type MaybePath = Option<string>

  /** `str(path)`: the text of a path, and "None" for no path. */
  function PathText(p: MaybePath): (r: string)
    ensures p.Some? ==> r == p.value
  {
    if p.Some? then p.value else "None"
  }

  /** `ArgumentTypeError`, by the check that raised it. */
  datatype ArgumentError =
    | NotFileOrDirectory(value: string)
    | MustBeDirectory(mode: Mode)
    | UnsupportedExtension(mode: Mode)

  /** `VALID_VIDEO_TYPES` of src/constants.py. */
  const VideoTypes: seq<string> := [".avi", ".mp4", ".m4v", ".mkv", ".mov"]

  /**
   * `validate_path_type`: a path that is neither a regular file nor a
   * directory is rejected; any other is returned (its absolute form, which
   * for the normalised paths of this model is the path itself).
   */
  function ValidatePathType(fs: MediaTypes.FileSystem, value: string): (r: Result<string, ArgumentError>)
    ensures r.Ok? <==> MediaTypes.IsFile(fs, value) || MediaTypes.IsDir(fs, value)
    ensures r.Ok? ==> r.value == value
    ensures r.Err? ==> r.error == NotFileOrDirectory(value)
  {
    if !MediaTypes.IsFile(fs, value) && !MediaTypes.IsDir(fs, value) then Err(NotFileOrDirectory(value))
    else Ok(value)
  }

  /**
   * `validate_path_and_mode`: the album and playlist modes need a
   * directory, the image mode an image suffix and the video mode a video
   * suffix; each mode is held to its own check only.
   */
  function ValidatePathAndMode(fs: MediaTypes.FileSystem, imageTypes: seq<string>, mode: Mode, value: string)
    : (r: Result<(), ArgumentError>)
    ensures (mode == ALBUM || mode == PLAYLIST) ==> (r.Ok? <==> MediaTypes.IsDir(fs, value))
    ensures mode == IMAGE ==> (r.Ok? <==> MediaTypes.Suffix(value) in imageTypes)
    ensures mode == VIDEO ==> (r.Ok? <==> MediaTypes.Suffix(value) in VideoTypes)
    ensures r.Err? ==> r.error == if mode == ALBUM || mode == PLAYLIST then MustBeDirectory(mode) else UnsupportedExtension(mode)
  {
    if (mode == ALBUM || mode == PLAYLIST) && !MediaTypes.IsDir(fs, value) then Err(MustBeDirectory(mode))
    else if mode == IMAGE && MediaTypes.Suffix(value) !in imageTypes then Err(UnsupportedExtension(mode))
    else if mode == VIDEO && MediaTypes.Suffix(value) !in VideoTypes then Err(UnsupportedExtension(mode))
    else Ok(())
  }

  /** An album directory passes whatever its name, even one that looks like a video. */
  lemma AlbumDirectoryIgnoresSuffix(fs: MediaTypes.FileSystem, imageTypes: seq<string>, dir: string, base: string)
    requires base != [] && '/' !in base
    requires MediaTypes.IsDir(fs, dir + "/" + base + "." + "mp4")
    ensures ValidatePathAndMode(fs, imageTypes, ALBUM, dir + "/" + base + "." + "mp4").Ok?
    ensures MediaTypes.Suffix(dir + "/" + base + "." + "mp4") in VideoTypes
  {
    MediaTypes.SuffixOfChild(dir, base, "mp4");
    assert "." + "mp4" == VideoTypes[1];
  }

  /**
   * The image mode looks only at the suffix: a directory, or a path that
   * does not exist, named like an image passes.
   */
  lemma ImageModeIgnoresFileKind(fs: MediaTypes.FileSystem, imageTypes: seq<string>, dir: string, base: string)
    requires base != [] && '/' !in base && ".jpg" in imageTypes
    ensures ValidatePathAndMode(fs, imageTypes, IMAGE, dir + "/" + base + "." + "jpg").Ok?
  {
    MediaTypes.SuffixOfChild(dir, base, "jpg");
    assert "." + "jpg" == ".jpg";
  }

  /** A video file with an upper-case extension is refused in video mode. */
  lemma VideoModeIsCaseSensitive(fs: MediaTypes.FileSystem, imageTypes: seq<string>, dir: string, base: string)
    requires base != [] && '/' !in base
    ensures ValidatePathAndMode(fs, imageTypes, VIDEO, dir + "/" + base + "." + "MP4") == Err(UnsupportedExtension(VIDEO))
  {
    MediaTypes.SuffixOfChild(dir, base, "MP4");
    var upper := "." + "MP4";
    assert upper[1] == 'M';
    assert upper !in VideoTypes;
  }
}
