/** utils/file_utils.py over an abstract filesystem: a map from paths to files (with
    their text) and directories. Discovery lists the matching files directly inside a
    directory in sorted order; the output name swaps the last suffix; directory creation
    adds the missing ancestors; saving writes (or overwrites) one file. */
module FileUtils {
  import opened Common
  import opened Text
  import opened Paths

  datatype Node = File(content: string) | Dir

  type FileSystem = map<Path, Node>

  /** The root is a directory and every other entry sits inside a directory. */
  predicate WellFormed(fs: FileSystem) {
    && [] in fs && fs[[]] == Dir
    && forall p {:trigger Parent(p)} :: p in fs && |p| > 0 ==> Parent(p) in fs && fs[Parent(p)] == Dir
  }

  predicate IsDir(fs: FileSystem, p: Path) {
    p in fs && fs[p].Dir?
  }

  predicate IsFile(fs: FileSystem, p: Path) {
    p in fs && fs[p].File?
  }

  /** The text a read of `p` returns, if `p` is a file. */
  function ReadText(fs: FileSystem, p: Path): Option<string> {
    if IsFile(fs, p) then Some(fs[p].content) else None
  }

  // ---------------------------------------------------------------------------
  // discover_images

  /** The names `dir.iterdir()` yields. */
  function ChildNames(fs: FileSystem, dir: Path): (r: set<string>)
    ensures forall n :: n in r <==> Child(dir, n) in fs
  {
    var r := set p | p in fs && |p| == |dir| + 1 && p[..|dir|] == dir :: p[|dir|];
    assert forall n :: Child(dir, n) in fs ==> Child(dir, n)[|dir|] == n && Child(dir, n)[..|dir|] == dir;
    assert forall p :: p in fs && |p| == |dir| + 1 && p[..|dir|] == dir ==> p == Child(dir, p[|dir|]);
    r
  }

  /** An entry of `dir` that discovery keeps: a regular file whose lower-cased suffix is
      among the lower-cased extensions. */
  predicate IsImage(fs: FileSystem, dir: Path, n: string, extensions: seq<string>) {
    IsFile(fs, Child(dir, n)) && Lower(Suffix(n)) in LowerAll(extensions)
  }

  function ImageNames(fs: FileSystem, dir: Path, extensions: seq<string>): (r: set<string>)
    ensures forall n :: n in r <==> IsImage(fs, dir, n, extensions)
  {
    set n | n in ChildNames(fs, dir) && IsImage(fs, dir, n, extensions)
  }

  function ChildPaths(dir: Path, names: seq<string>): (r: seq<Path>)
    ensures |r| == |names|
    ensures forall i :: 0 <= i < |names| ==> r[i] == Child(dir, names[i])
  {
    seq(|names|, i requires 0 <= i < |names| => Child(dir, names[i]))
  }

  /** True when `p` sits directly inside `dir`. */
  predicate InDir(p: Path, dir: Path) {
    |p| == |dir| + 1 && p[..|dir|] == dir
  }

  /** The matching files of an existing directory, in sorted order. */
  function ListImages(fs: FileSystem, dir: Path, extensions: seq<string>): (r: seq<Path>)
    ensures forall p :: p in r <==> InDir(p, dir) && IsFile(fs, p) && Lower(Suffix(Name(p))) in LowerAll(extensions)
    ensures forall i, j :: 0 <= i < j < |r| ==> Below(Name(r[i]), Name(r[j])) && r[i] != r[j]
  {
    var names := SortedSeqOf(ImageNames(fs, dir, extensions));
    var paths := ChildPaths(dir, names);
    ListImagesMembers(fs, dir, extensions, names, paths);
    paths
  }

  lemma ListImagesMembers(fs: FileSystem, dir: Path, extensions: seq<string>, names: seq<string>, paths: seq<Path>)
    requires forall n :: n in names <==> IsImage(fs, dir, n, extensions)
    requires |paths| == |names| && forall i :: 0 <= i < |names| ==> paths[i] == Child(dir, names[i])
    ensures forall p :: p in paths <==> InDir(p, dir) && IsFile(fs, p) && Lower(Suffix(Name(p))) in LowerAll(extensions)
  {
    forall p
      ensures p in paths <==> InDir(p, dir) && IsFile(fs, p) && Lower(Suffix(Name(p))) in LowerAll(extensions)
    {
      if p in paths {
        ListedIsImage(fs, dir, extensions, names, paths, p);
      }
      if InDir(p, dir) && IsFile(fs, p) && Lower(Suffix(Name(p))) in LowerAll(extensions) {
        ImageIsListed(fs, dir, extensions, names, paths, p);
      }
    }
  }

  lemma ListedIsImage(fs: FileSystem, dir: Path, extensions: seq<string>, names: seq<string>, paths: seq<Path>, p: Path)
    requires forall n :: n in names <==> IsImage(fs, dir, n, extensions)
    requires |paths| == |names| && forall i :: 0 <= i < |names| ==> paths[i] == Child(dir, names[i])
    requires p in paths
    ensures InDir(p, dir) && IsFile(fs, p) && Lower(Suffix(Name(p))) in LowerAll(extensions)
  {
    var i :| 0 <= i < |paths| && paths[i] == p;
    assert names[i] in names;
  }

  lemma ImageIsListed(fs: FileSystem, dir: Path, extensions: seq<string>, names: seq<string>, paths: seq<Path>, p: Path)
    requires forall n :: n in names <==> IsImage(fs, dir, n, extensions)
    requires |paths| == |names| && forall i :: 0 <= i < |names| ==> paths[i] == Child(dir, names[i])
    requires InDir(p, dir) && IsFile(fs, p) && Lower(Suffix(Name(p))) in LowerAll(extensions)
    ensures p in paths
  {
    assert p == Child(dir, Name(p));
    assert Name(p) in names;
    var i :| 0 <= i < |names| && names[i] == Name(p);
    assert paths[i] == p;
  }

  /** `discover_images(directory, supported_extensions)`. The existence check comes
      first; then every regular file directly inside the directory whose suffix matches
      an extension case-insensitively is listed, and nothing else, in sorted order. */
  function DiscoverImages(fs: FileSystem, dir: Path, extensions: seq<string>): (r: Result<seq<Path>>)
    ensures dir !in fs ==> r == Err(Error(ValueError, "Directory does not exist: " + Str(dir)))
    ensures IsFile(fs, dir) ==> r == Err(Error(ValueError, "Path is not a directory: " + Str(dir)))
    ensures IsDir(fs, dir) ==> r.Ok?
    ensures r.Ok? ==> forall p :: p in r.value <==>
      InDir(p, dir) && IsFile(fs, p) && Lower(Suffix(Name(p))) in LowerAll(extensions)
    ensures r.Ok? ==> forall i, j :: 0 <= i < j < |r.value| ==>
      Below(Name(r.value[i]), Name(r.value[j])) && r.value[i] != r.value[j]
  {
    if dir !in fs then Err(Error(ValueError, "Directory does not exist: " + Str(dir)))
    else if !fs[dir].Dir? then Err(Error(ValueError, "Path is not a directory: " + Str(dir)))
    else Ok(ListImages(fs, dir, extensions))
  }

  /** A directory with no matching file yields the empty list. */
  lemma DiscoverNothing(fs: FileSystem, dir: Path, extensions: seq<string>)
    requires IsDir(fs, dir)
    requires forall n :: !IsImage(fs, dir, n, extensions)
    ensures DiscoverImages(fs, dir, extensions) == Ok([])
  {
  }

  /** Discovery only looks at files: adding or removing directories anywhere leaves its
      result unchanged. */
  lemma DiscoverIgnoresDirs(fs: FileSystem, fs': FileSystem, dir: Path, extensions: seq<string>)
    requires IsDir(fs, dir) && IsDir(fs', dir)
    requires forall p :: IsFile(fs, p) <==> IsFile(fs', p)
    requires forall p :: IsFile(fs, p) && IsFile(fs', p) ==> fs'[p] == fs[p]
    ensures DiscoverImages(fs, dir, extensions) == DiscoverImages(fs', dir, extensions)
  {
    assert ImageNames(fs, dir, extensions) == ImageNames(fs', dir, extensions);
  }

  // ---------------------------------------------------------------------------
  // generate_output_filename

  /** The extension with a leading dot added when it has none. */
  function DottedExtension(ext: string): (r: string)
    ensures StartsWith(r, ".")
    ensures StartsWith(ext, ".") ==> r == ext
    ensures !StartsWith(ext, ".") ==> |r| == |ext| + 1 && r[1..] == ext
  {
    if StartsWith(ext, ".") then ext else "." + ext
  }

  /** `generate_output_filename(image_path, output_extension)`: the image's stem
      followed by the dotted extension. */
  function GenerateOutputFilename(imagePath: Path, ext: string): (r: string)
    ensures |r| == |Stem(Name(imagePath))| + |DottedExtension(ext)|
    ensures r[..|Stem(Name(imagePath))|] == Stem(Name(imagePath))
    ensures r[|Stem(Name(imagePath))|] == '.'
    ensures r[|Stem(Name(imagePath))|..] == DottedExtension(ext)
  {
    Stem(Name(imagePath)) + DottedExtension(ext)
  }

  /** "txt" and ".txt" name the same output file. */
  lemma OutputNameDotOptional(imagePath: Path, ext: string)
    requires !StartsWith(ext, ".")
    ensures GenerateOutputFilename(imagePath, ext) == GenerateOutputFilename(imagePath, "." + ext)
  {
    assert StartsWith("." + ext, ".");
  }

  /** Only the last suffix is replaced: the output name has the image's stem as its stem
      and the new extension as its suffix, so the image name is the output's stem plus
      the old suffix. */
  lemma OutputNameReplacesSuffix(imagePath: Path, ext: string)
    requires |Name(imagePath)| > 0
    requires |DottedExtension(ext)| >= 2 && '.' !in DottedExtension(ext)[1..]
    ensures Stem(GenerateOutputFilename(imagePath, ext)) == Stem(Name(imagePath))
    ensures Suffix(GenerateOutputFilename(imagePath, ext)) == DottedExtension(ext)
    ensures Stem(GenerateOutputFilename(imagePath, ext)) + Suffix(Name(imagePath)) == Name(imagePath)
  {
    var name := Name(imagePath);
    var stem := Stem(name);
    var e := DottedExtension(ext);
    var r := stem + e;
    StemSuffixSplit(name);
    assert |stem| > 0;
    assert r[|stem|] == '.';
    forall j | |stem| < j < |r|
      ensures r[j] != '.'
    {
      assert r[j] == e[1..][j - |stem| - 1];
    }
    assert LastDot(r) == |stem|;
    assert r[..|stem|] == stem && r[|stem|..] == e;
  }

  lemma OutputNameExamples()
    ensures GenerateOutputFilename(["dir", "photo.jpg"], ".txt") == "photo.txt"
    ensures GenerateOutputFilename(["dir", "photo.jpg"], "txt") == "photo.txt"
    ensures GenerateOutputFilename(["dir", "image.png"], ".md") == "image.md"
  {
    ExampleStems();
    assert "txt"[0] == 't';
    assert !StartsWith("txt", ".");
    assert DottedExtension("txt") == ".txt";
  }

  lemma ExampleStems()
    ensures Stem(Name(["dir", "photo.jpg"])) == "photo"
    ensures Stem(Name(["dir", "image.png"])) == "image"
  {
    LastDotAt("photo.jpg", 5);
    LastDotAt("image.png", 5);
    assert "photo.jpg"[..5] == "photo";
    assert "image.png"[..5] == "image";
  }

  /** Only the last dot starts the suffix, and a name without a dot is all stem. */
  lemma OutputNameDotExamples()
    ensures GenerateOutputFilename(["dir", "my.photo.v2.jpg"], ".txt") == "my.photo.v2.txt"
    ensures GenerateOutputFilename(["dir", "imagefile"], ".txt") == "imagefile.txt"
  {
    LastDotAt("my.photo.v2.jpg", 11);
    LastDotAt("imagefile", -1);
    assert "my.photo.v2.jpg"[..11] == "my.photo.v2";
  }

  // ---------------------------------------------------------------------------
  // ensure_output_directory

  /** Every proper ancestor of an entry of a well-formed filesystem is a directory. */
  lemma {:induction false} AncestorsAreDirs(fs: FileSystem, q: Path)
    requires WellFormed(fs) && q in fs
    ensures forall k :: 0 <= k < |q| ==> IsDir(fs, q[..k])
    decreases |q|
  {
    if |q| > 0 {
      var parent := Parent(q);
      AncestorsAreDirs(fs, parent);
      forall k | 0 <= k < |q|
        ensures IsDir(fs, q[..k])
      {
        if k < |parent| {
          assert parent[..k] == q[..k];
        } else {
          assert q[..k] == parent;
        }
      }
    }
  }

  /** The longest prefix of `p` (possibly `p` itself) that exists. */
  function NearestExisting(fs: FileSystem, p: Path): (q: Path)
    requires WellFormed(fs)
    ensures q in fs && |q| <= |p| && q == p[..|q|]
    ensures forall k :: |q| < k <= |p| ==> p[..k] !in fs
    decreases |p|
  {
    if p in fs then p
    else
      var q := NearestExisting(fs, Parent(p));
      assert forall k :: 0 <= k <= |Parent(p)| ==> Parent(p)[..k] == p[..k];
      assert p[..|p|] == p;
      q
  }

  /** Some proper prefix of `p` is a regular file, so `p` cannot be created. */
  predicate HasFileAncestor(fs: FileSystem, p: Path) {
    exists k :: 0 <= k < |p| && IsFile(fs, p[..k])
  }

  /** For a missing path, the nearest existing prefix is a directory exactly when no
      proper prefix is a file. */
  lemma NearestExistingIsDir(fs: FileSystem, p: Path)
    requires WellFormed(fs) && p !in fs
    ensures IsDir(fs, NearestExisting(fs, p)) <==> !HasFileAncestor(fs, p)
  {
    var q := NearestExisting(fs, p);
    AncestorsAreDirs(fs, q);
    if IsDir(fs, q) {
      forall k | 0 <= k < |p|
        ensures !IsFile(fs, p[..k])
      {
        if k < |q| {
          assert p[..k] == q[..k];
          assert IsDir(fs, q[..k]);
        } else if k == |q| {
          assert p[..k] == q;
        } else {
          assert p[..k] !in fs;
        }
      }
    } else {
      assert q == p[..|q|] && |q| < |p|;
      assert IsFile(fs, p[..|q|]);
    }
  }

  /** `mkdir(parents=True, exist_ok=True)` once the nearest existing prefix is known to be
      a directory: `p` and its missing ancestors become directories. */
  function MakeDirs(fs: FileSystem, p: Path): (r: FileSystem)
    requires WellFormed(fs) && IsDir(fs, NearestExisting(fs, p))
    ensures WellFormed(r) && IsDir(r, p)
    ensures forall q :: q in fs ==> q in r && r[q] == fs[q]
    ensures forall q :: q in r && q !in fs ==> r[q] == Dir && |q| <= |p| && q == p[..|q|]
    decreases |p|
  {
    if p in fs then fs
    else
      var r0 := MakeDirs(fs, Parent(p));
      var r := r0[p := Dir];
      assert forall q :: q in r && |q| > 0 && q != p ==> q in r0;
      r
  }

  /** `ensure_output_directory(output_dir)`. */
  function EnsureOutputDirectory(fs: FileSystem, p: Path): (r: Result<FileSystem>)
    requires WellFormed(fs)
    ensures IsDir(fs, p) ==> r == Ok(fs)
    ensures IsFile(fs, p) ==> r == Err(Error(ValueError, "Path exists but is not a directory: " + Str(p)))
    ensures r.Ok? ==> WellFormed(r.value) && IsDir(r.value, p)
    ensures r.Ok? ==> forall q :: q in fs ==> q in r.value && r.value[q] == fs[q]
    ensures r.Ok? ==> forall q :: q in r.value && q !in fs ==> r.value[q] == Dir && |q| <= |p| && q == p[..|q|]
  {
    if p in fs then
      if fs[p].Dir? then Ok(fs)
      else Err(Error(ValueError, "Path exists but is not a directory: " + Str(p)))
    else if !IsDir(fs, NearestExisting(fs, p)) then Err(Error(OSError, "[Errno 20] Not a directory: " + Repr(Str(p))))
    else Ok(MakeDirs(fs, p))
  }

  /** A missing directory can be created exactly when no prefix of it is a file. */
  lemma EnsureOutputDirectoryCreates(fs: FileSystem, p: Path)
    requires WellFormed(fs) && p !in fs
    ensures HasFileAncestor(fs, p) ==> EnsureOutputDirectory(fs, p) == Err(Error(OSError, "[Errno 20] Not a directory: " + Repr(Str(p))))
    ensures !HasFileAncestor(fs, p) ==> EnsureOutputDirectory(fs, p).Ok?
  {
    NearestExistingIsDir(fs, p);
  }

  /** Ensuring a directory twice is the same as ensuring it once. */
  lemma EnsureOutputDirectoryIdempotent(fs: FileSystem, p: Path)
    requires WellFormed(fs) && EnsureOutputDirectory(fs, p).Ok?
    ensures EnsureOutputDirectory(EnsureOutputDirectory(fs, p).value, p) == EnsureOutputDirectory(fs, p)
  {
  }

  // ---------------------------------------------------------------------------
  // save_text_to_file

  /** `save_text_to_file(text, output_path)`: `write_text` opens the path for writing,
      which fails when the path is a directory or its parent is not one. */
  function SaveTextToFile(fs: FileSystem, p: Path, text: string): (r: Result<FileSystem>)
    requires WellFormed(fs)
    ensures r.Ok? <==> IsDir(fs, Parent(p)) && !IsDir(fs, p)
    ensures r.Err? ==> r.error.kind == OSError
    ensures r.Ok? ==> ReadText(r.value, p) == Some(text)
    ensures r.Ok? ==> WellFormed(r.value) && r.value.Keys == fs.Keys + {p}
    ensures r.Ok? ==> forall q :: q in fs && q != p ==> r.value[q] == fs[q]
    ensures r.Ok? ==> forall q :: IsDir(r.value, q) <==> IsDir(fs, q)
  {
    if IsDir(fs, p) then Err(Error(OSError, "[Errno 21] Is a directory: " + Repr(Str(p))))
    else
      var q := NearestExisting(fs, Parent(p));
      if !IsDir(fs, q) then Err(Error(OSError, "[Errno 20] Not a directory: " + Repr(Str(p))))
      else if q != Parent(p) then Err(Error(OSError, "[Errno 2] No such file or directory: " + Repr(Str(p))))
      else
        var r := fs[p := File(text)];
        assert forall x :: x in r && |x| > 0 ==> Parent(x) != p || x !in fs;
        assert forall x :: x in r && |x| > 0 && x != p ==> x in fs;
        Ok(r)
  }
}
