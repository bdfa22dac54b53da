/**
 * Media classification (paperframe/util.py) over the suffix lists of
 * paperframe/constants.py. The file system is a map from path to node;
 * a path that is not in the map does not exist.
 */
module MediaTypes {

  /** What `Path.is_file()` / `Path.is_dir()` can see at a path. A directory lists its direct children as full paths, in `iterdir` order. */
  datatype Node = RegularFile | Directory(entries: seq<string>) | Special

  type FileSystem = map<string, Node>

  const ImageTypes: seq<string> := [".bmp", ".jpg", ".jpeg", ".png", ".tiff"]
  const VideoTypes: seq<string> := [".avi", ".mp4", ".m4v", ".mkv", ".mov"]

  predicate IsFile(fs: FileSystem, p: string)
  {
    p in fs && fs[p].RegularFile?
  }

  predicate IsDir(fs: FileSystem, p: string)
  {
    p in fs && fs[p].Directory?
  }

  /** `Path.name`: the text after the last '/'. */
  function Name(p: string): (r: string)
    ensures |r| <= |p|
  {
    if p == [] || p[|p| - 1] == '/' then []
    else Name(p[..|p| - 1]) + [p[|p| - 1]]
  }

  /** The name is the tail of the path after its last '/', and holds no '/'. */
  lemma {:induction false} NameShape(p: string)
    ensures var r := Name(p);
      r == p[|p| - |r|..] && '/' !in r && (|r| < |p| ==> p[|p| - |r| - 1] == '/')
    decreases |p|
  {
    if p != [] && p[|p| - 1] != '/' {
      var q := p[..|p| - 1];
      NameShape(q);
      var r := Name(q);
      assert p[|p| - |r| - 1..] == q[|q| - |r|..] + [p[|p| - 1]];
    }
  }

  /** Position of the last '.' in s, or -1 (`str.rfind('.')`). */
  function LastDot(s: string): (i: int)
    ensures -1 <= i < |s|
  {
    if s == [] then -1
    else if s[|s| - 1] == '.' then |s| - 1
    else LastDot(s[..|s| - 1])
  }

  /** `rfind` finds a '.' with none after it, or reports that there is none. */
  lemma {:induction false} LastDotShape(s: string)
    ensures var i := LastDot(s);
      (i == -1 ==> '.' !in s) && (i >= 0 ==> s[i] == '.' && '.' !in s[i + 1..])
    decreases |s|
  {
    if s != [] && s[|s| - 1] != '.' {
      var q := s[..|s| - 1];
      var c := s[|s| - 1];
      LastDotShape(q);
      var i := LastDot(q);
      assert LastDot(s) == i;
      assert s == q + [c];
      if i >= 0 {
        assert s[i + 1..] == q[i + 1..] + [c];
        assert s[i] == q[i];
      } else {
        assert forall x :: x in s ==> x in q || x == c;
      }
    }
  }

  /**
   * `Path.suffix`: from the last '.' of the name to its end, but only when
   * that dot is neither the name's first nor its last character.
   */
  function Suffix(p: string): (r: string)
  {
    NameSuffix(Name(p))
  }

  function NameSuffix(name: string): (r: string)
  {
    var i := LastDot(name);
    if 0 < i < |name| - 1 then name[i..] else ""
  }

  lemma SuffixShape(p: string)
    ensures var r := Suffix(p);
      r == "" || (|r| >= 2 && r[0] == '.' && '.' !in r[1..] && '/' !in r && r == p[|p| - |r|..])
  {
    var name := Name(p);
    var i := LastDot(name);
    NameShape(p);
    LastDotShape(name);
    assert Suffix(p) == NameSuffix(name);
    if 0 < i < |name| - 1 {
      var r := name[i..];
      assert r[1..] == name[i + 1..];
      assert forall c :: c in r ==> c in name;
    }
  }

  predicate IsVideo(fs: FileSystem, f: string)
  {
    IsFile(fs, f) && Suffix(f) in VideoTypes
  }

  predicate IsImage(fs: FileSystem, f: string)
  {
    IsFile(fs, f) && Suffix(f) in ImageTypes
  }

  predicate IsValidMedia(fs: FileSystem, f: string)
  {
    IsImage(fs, f) || IsVideo(fs, f)
  }

  lemma ImageAndVideoDisjoint(fs: FileSystem, f: string)
    ensures !(IsImage(fs, f) && IsVideo(fs, f))
  {
    assert forall t :: t in ImageTypes ==> t !in VideoTypes;
  }

  /** Whatever its name, a directory is never media. */
  lemma DirectoryIsNeverMedia(fs: FileSystem, f: string)
    requires IsDir(fs, f)
    ensures !IsValidMedia(fs, f)
  {
  }

  /** The name of `dir/n` is n when n holds no '/'. */
  lemma {:induction false} NameOfChild(dir: string, n: string)
    requires '/' !in n
    ensures Name(dir + "/" + n) == n
    decreases |n|
  {
    var p := dir + "/" + n;
    if n == [] {
      assert p[|p| - 1] == '/';
    } else {
      var m := n[..|n| - 1];
      assert n == m + [n[|n| - 1]];
      assert p[..|p| - 1] == dir + "/" + m;
      assert p[|p| - 1] == n[|n| - 1];
      NameOfChild(dir, m);
    }
  }

  /** In `b.e` with no '.' in e, the last dot is at |b|. */
  lemma {:induction false} LastDotOf(b: string, e: string)
    requires '.' !in e
    ensures LastDot(b + "." + e) == |b|
    decreases |e|
  {
    var s := b + "." + e;
    if e == [] {
      assert s[|s| - 1] == '.';
    } else {
      var m := e[..|e| - 1];
      assert e == m + [e[|e| - 1]];
      assert s[..|s| - 1] == b + "." + m;
      assert s[|s| - 1] == e[|e| - 1];
      LastDotOf(b, m);
    }
  }

  lemma NameSuffixOf(b: string, e: string)
    requires b != [] && e != [] && '.' !in e
    ensures NameSuffix(b + "." + e) == "." + e
  {
    var n := b + "." + e;
    LastDotOf(b, e);
    assert n[|b|..] == "." + e;
  }

  /** The suffix of `dir/b.e` is ".e" when b is not empty and e is a non-empty extension. */
  lemma SuffixOfChild(dir: string, b: string, e: string)
    requires b != [] && e != [] && '/' !in b && '/' !in e && '.' !in e
    ensures Suffix(dir + "/" + b + "." + e) == "." + e
  {
    var n := b + "." + e;
    assert dir + "/" + b + "." + e == dir + "/" + n;
    assert '/' !in n by {
      assert forall k :: 0 <= k < |n| ==> n[k] == (if k < |b| then b[k] else if k == |b| then '.' else e[k - |b| - 1]);
    }
    NameOfChild(dir, n);
    NameSuffixOf(b, e);
  }

  lemma UpperCaseExtensionIsNotMedia(fs: FileSystem, dir: string, base: string)
    requires base != [] && '/' !in base
    ensures !IsValidMedia(fs, dir + "/" + base + "." + "JPG")
  {
    SuffixOfChild(dir, base, "JPG");
    var upper := "." + "JPG";
    assert upper[1] == 'J';
    assert upper !in ImageTypes && upper !in VideoTypes;
  }

  lemma LowerCaseExtensionIsImage(fs: FileSystem, dir: string, base: string)
    requires base != [] && '/' !in base
    requires IsFile(fs, dir + "/" + base + "." + "jpg")
    ensures IsImage(fs, dir + "/" + base + "." + "jpg")
  {
    SuffixOfChild(dir, base, "jpg");
    assert "." + "jpg" == ImageTypes[1];
  }

  /**
   * Matching is exact membership, so for any file `dir/base.JPG` the
   * upper-case extension is not recognised while `dir/base.jpg` is an image.
   */
  lemma SuffixMatchIsCaseSensitive(fs: FileSystem, dir: string, base: string)
    requires base != [] && '/' !in base
    requires IsFile(fs, dir + "/" + base + "." + "jpg")
    ensures !IsValidMedia(fs, dir + "/" + base + "." + "JPG")
    ensures IsImage(fs, dir + "/" + base + "." + "jpg")
  {
    UpperCaseExtensionIsNotMedia(fs, dir, base);
    LowerCaseExtensionIsImage(fs, dir, base);
  }

  /** A file called exactly ".png" has no suffix (its only dot is the name's first character), so it is not an image. */
  lemma LeadingDotIsNoSuffix(fs: FileSystem)
    requires IsFile(fs, "/media/.png")
    ensures !IsValidMedia(fs, "/media/.png")
  {
    NameOfChild("/media", ".png");
    assert "/media" + "/" + ".png" == "/media/.png";
    LastDotOf("", "png");
    assert "" + "." + "png" == ".png";
  }
}
