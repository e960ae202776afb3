/**
 * Texture import: turning a NiSourceTexture block or a bare file name
 * into a host image.  External textures are searched for in a list of
 * directories under several spellings of the file name; embedded
 * textures are written out as `.dds` files once per run.  The host's
 * image table and the set of existing files are fields of the loader.
 */
module TextureLoader {
  import opened Wrappers
  import opened Strings
  import opened Paths

  /** A host image datablock: its name (the file's basename), its path, and whether it is a 1x1 placeholder. */
  datatype Image = Image(name: string, filepath: string, placeholder: bool)

  /** A NiSourceTexture block, as far as the loader reads it. */
  datatype SourceTexture = SourceTexture(fileName: string, useExternal: bool)

  /** What `import_texture_source` is given: nothing, a NiSourceTexture block, or a bare path. */
  datatype TextureSource = NoSource | SourceBlock(block: SourceTexture) | PathString(path: string)

  /** The settings and host path helpers the loader consults. */
  datatype Environment = Environment(
    nifFilePath: string,            // the file being imported
    textureDirectory: string,       // the user's texture directory, "" when unset
    cwd: string,                    // the working directory
    useEmbeddedTexture: bool,       // the "use embedded texture" import option
    sep: char,                      // the platform path separator
    absPath: string -> string,      // the host's expansion of a "//"-relative path
    relPath: string -> string,      // the host's conversion back to a "//"-relative path
    resolveNcase: string -> string) // the host's case-insensitive path resolution

  // ---------------------------------------------------------------- search directories

  /**
   * The directory guessed from `marker` ("meshes" or "art"): the import
   * path cut at the first case-insensitive occurrence of the marker,
   * followed by `replacement`; no directory when the marker is absent.
   */
  function GuessedDir(importPath: string, marker: string, replacement: string): (r: seq<string>)
    ensures r == [] <==> forall j :: !OccursAt(Lower(importPath), marker, j)
    ensures forall i :: OccursAt(Lower(importPath), marker, i)
                     && (forall j :: 0 <= j < i ==> !OccursAt(Lower(importPath), marker, j))
                     ==> r == [importPath[..i] + replacement]
  {
    var i := Find(Lower(importPath), marker);
    if i >= 0 then
      assert OccursAt(Lower(importPath), marker, i);
      [importPath[..i] + replacement]
    else []
  }

  /**
   * The texture search directories, in order: the import directory, the
   * user texture directory when set, `cwd/nif`, the "meshes" -> "textures"
   * guess and the "art" -> "shared" guess.
   */
  function SearchPathList(importPath: string, textureDirectory: string, cwd: string, sep: char): (r: seq<string>)
    ensures var k := if textureDirectory != "" then 2 else 1;
      && |r| == k + 1 + |GuessedDir(importPath, "meshes", "textures")| + |GuessedDir(importPath, "art", "shared")|
      && r[0] == importPath
      && (textureDirectory != "" ==> r[1] == textureDirectory)
      && r[k] == Join(cwd, "nif", sep)
      && r[k + 1..] == GuessedDir(importPath, "meshes", "textures") + GuessedDir(importPath, "art", "shared")
  {
    var head := [importPath] + (if textureDirectory != "" then [textureDirectory] else []) + [Join(cwd, "nif", sep)];
    var guessed := GuessedDir(importPath, "meshes", "textures") + GuessedDir(importPath, "art", "shared");
    assert (head + guessed)[|head|..] == guessed;
    head + guessed
  }

  // ---------------------------------------------------------------- candidate file names

  const Extensions: seq<string> := [".DDS", ".dds", ".PNG", ".png", ".TGA", ".tga", ".BMP", ".bmp", ".JPG", ".jpg"]

  /** `fn[:-4]`: the name without its last four characters (empty for shorter names). */
  function Stem(fn: string): string {
    if |fn| >= 4 then fn[..|fn| - 4] else []
  }

  /** For each extension in turn, the stem and the lower-cased stem with that extension. */
  function VariantsFor(stem: string, exts: seq<string>): (r: seq<string>)
    ensures |r| == 2 * |exts|
    ensures forall x :: x in r <==> exists k :: 0 <= k < |exts| && (x == stem + exts[k] || x == Lower(stem) + exts[k])
  {
    if exts == [] then []
    else
      var rest := VariantsFor(stem, exts[1..]);
      assert forall k :: 1 <= k < |exts| ==> exts[k] == exts[1..][k - 1];
      [stem + exts[0], Lower(stem) + exts[0]] + rest
  }

  /** The twenty extension variants of `fn` (with repetitions when the stem is already lower case). */
  function VariantList(fn: string): seq<string> {
    VariantsFor(Stem(fn), Extensions)
  }

  /** `order` lists the elements of `s` once each: one iteration order of `set(s)`. */
  ghost predicate IsEnumeration(order: seq<string>, s: seq<string>) {
    && (forall i, j :: 0 <= i < j < |order| ==> order[i] != order[j])
    && (forall x :: x in order <==> x in s)
  }

  /** One enumeration of `set(s)`: the elements of `s`, each kept at its last occurrence. */
  function Dedup(s: seq<string>): (r: seq<string>)
    ensures IsEnumeration(r, s)
  {
    if s == [] then []
    else if s[0] in s[1..] then Dedup(s[1..])
    else [s[0]] + Dedup(s[1..])
  }

  /** The candidate names tried in each directory: `fn`, `fn.lower()`, then the variants in `order`. */
  function Candidates(fn: string, order: seq<string>): seq<string> {
    [fn, Lower(fn)] + order
  }

  // ---------------------------------------------------------------- one probe

  const TexturesDir: string := "textures"

  /**
   * The path for candidate `texfn` in directory `texdir`.  When the
   * candidate starts with `textures<sep>` and the directory ends with
   * `<sep>textures` (both case-insensitively) the directory loses its last
   * nine characters, so the component is not doubled.
   */
  function TexturePath(texdir: string, texfn: string, sep: char): (r: string)
    ensures !StartsWith(texfn, [sep]) ==> EndsWith(r, texfn)
    ensures TexturesDoubled(texdir, texfn, sep) ==> |texdir| >= 9 && r == Join(texdir[..|texdir| - 9], texfn, sep)
    ensures !TexturesDoubled(texdir, texfn, sep) ==> r == Join(texdir, texfn, sep)
  {
    if TexturesDoubled(texdir, texfn, sep) then Join(texdir[..|texdir| - 9], texfn, sep)
    else Join(texdir, texfn, sep)
  }

  /** The candidate starts with `textures<sep>` and the directory ends with `<sep>textures`, ignoring case. */
  predicate TexturesDoubled(texdir: string, texfn: string, sep: char) {
    Lower(Prefix(texfn, 9)) == TexturesDir + [sep] && Lower(Suffix(texdir, 9)) == [sep] + TexturesDir
  }

  /** A directory ending in `<sep>textures` and a candidate starting with `textures<sep>` are joined at the directory's parent. */
  lemma TexturesNotDoubled(base: string, tail: string, texfn: string, sep: char)
    requires Lower(tail) == [sep] + TexturesDir
    requires Lower(Prefix(texfn, 9)) == TexturesDir + [sep]
    ensures TexturePath(base + tail, texfn, sep) == Join(base, texfn, sep)
  {
    var d := base + tail;
    assert Suffix(d, 9) == tail;
    assert d[..|d| - 9] == base;
  }

  /** A search directory after the `//` check and separator normalisation. */
  datatype SearchDir = SearchDir(dir: string, relative: bool)

  /** A `//` prefix marks a directory relative to the blend file; the prefix is dropped. */
  function PrepareDir(texdir: string, sep: char): (d: SearchDir)
    ensures d.relative <==> StartsWith(texdir, "//")
    ensures d.dir == NormalizeSeps(if d.relative then texdir[2..] else texdir, sep)
  {
    if Prefix(texdir, 2) == "//" then SearchDir(NormalizeSeps(texdir[2..], sep), true)
    else SearchDir(NormalizeSeps(texdir, sep), false)
  }

  /** The path probed for candidate `texfn` in directory `d`. */
  function ProbePath(env: Environment, d: SearchDir, texfn: string): string {
    var tex := TexturePath(d.dir, texfn, env.sep);
    env.resolveNcase(if d.relative then env.absPath("//" + tex) else tex)
  }

  /** The path handed to the image loader once `probed` exists. */
  function LoadPathOf(env: Environment, d: SearchDir, probed: string): string {
    if d.relative then env.relPath(probed) else probed
  }

  // ---------------------------------------------------------------- the search, as a specification

  /** The first candidate of `cands` found in directory `d`, as the path to load. */
  function FirstInDir(env: Environment, files: set<string>, d: SearchDir, cands: seq<string>): Option<string> {
    if cands == [] then None
    else if ProbePath(env, d, cands[0]) in files then Some(LoadPathOf(env, d, ProbePath(env, d, cands[0])))
    else FirstInDir(env, files, d, cands[1..])
  }

  /**
   * The first existing path, trying directories in the outer loop and
   * candidates in the inner one.
   */
  function FirstExisting(env: Environment, files: set<string>, dirs: seq<string>, cands: seq<string>): Option<string> {
    if dirs == [] then None
    else
      var hit := FirstInDir(env, files, PrepareDir(dirs[0], env.sep), cands);
      if hit.Some? then hit else FirstExisting(env, files, dirs[1..], cands)
  }

  /**
   * Within one directory: nothing is found exactly when no candidate's
   * probe exists, and what is found is the load path of the first
   * candidate whose probe exists.
   */
  lemma {:induction false} FirstInDirMeaning(env: Environment, files: set<string>, d: SearchDir, cands: seq<string>)
    ensures FirstInDir(env, files, d, cands).None? <==> forall j :: 0 <= j < |cands| ==> ProbePath(env, d, cands[j]) !in files
    ensures FirstInDir(env, files, d, cands).Some? ==>
              exists j :: 0 <= j < |cands| && ProbePath(env, d, cands[j]) in files
                       && (forall k :: 0 <= k < j ==> ProbePath(env, d, cands[k]) !in files)
                       && FirstInDir(env, files, d, cands).value == LoadPathOf(env, d, ProbePath(env, d, cands[j]))
  {
    if cands != [] && ProbePath(env, d, cands[0]) !in files {
      FirstInDirMeaning(env, files, d, cands[1..]);
      if FirstInDir(env, files, d, cands[1..]).Some? {
        var j :| 0 <= j < |cands[1..]| && ProbePath(env, d, cands[1..][j]) in files
                 && (forall k :: 0 <= k < j ==> ProbePath(env, d, cands[1..][k]) !in files)
                 && FirstInDir(env, files, d, cands[1..]).value == LoadPathOf(env, d, ProbePath(env, d, cands[1..][j]));
        assert cands[j + 1] == cands[1..][j];
        forall k | 0 <= k < j + 1
          ensures ProbePath(env, d, cands[k]) !in files
        {
          if k > 0 {
            assert cands[k] == cands[1..][k - 1];
          }
        }
      } else {
        forall k | 0 <= k < |cands|
          ensures ProbePath(env, d, cands[k]) !in files
        {
          if k > 0 {
            assert cands[k] == cands[1..][k - 1];
          }
        }
      }
    }
  }

  /** Across directories: nothing is found exactly when no directory yields a hit. */
  lemma {:induction false} FirstExistingNone(env: Environment, files: set<string>, dirs: seq<string>, cands: seq<string>)
    ensures FirstExisting(env, files, dirs, cands).None? <==>
              forall i :: 0 <= i < |dirs| ==> FirstInDir(env, files, PrepareDir(dirs[i], env.sep), cands).None?
  {
    if dirs != [] && FirstInDir(env, files, PrepareDir(dirs[0], env.sep), cands).None? {
      FirstExistingNone(env, files, dirs[1..], cands);
      assert forall i :: 1 <= i < |dirs| ==> dirs[i] == dirs[1..][i - 1];
    }
  }

  /** Across directories: a hit is the hit of the first directory that yields one. */
  lemma {:induction false} FirstExistingSome(env: Environment, files: set<string>, dirs: seq<string>, cands: seq<string>)
    ensures FirstExisting(env, files, dirs, cands).Some? ==>
              exists i :: 0 <= i < |dirs|
                       && (forall k :: 0 <= k < i ==> FirstInDir(env, files, PrepareDir(dirs[k], env.sep), cands).None?)
                       && FirstExisting(env, files, dirs, cands) == FirstInDir(env, files, PrepareDir(dirs[i], env.sep), cands)
  {
    if dirs != [] && FirstInDir(env, files, PrepareDir(dirs[0], env.sep), cands).None? {
      FirstExistingSome(env, files, dirs[1..], cands);
      if FirstExisting(env, files, dirs[1..], cands).Some? {
        var i :| 0 <= i < |dirs[1..]|
                 && (forall k :: 0 <= k < i ==> FirstInDir(env, files, PrepareDir(dirs[1..][k], env.sep), cands).None?)
                 && FirstExisting(env, files, dirs[1..], cands) == FirstInDir(env, files, PrepareDir(dirs[1..][i], env.sep), cands);
        assert dirs[i + 1] == dirs[1..][i];
        forall k | 0 <= k < i + 1
          ensures FirstInDir(env, files, PrepareDir(dirs[k], env.sep), cands).None?
        {
          if k > 0 {
            assert dirs[k] == dirs[1..][k - 1];
          }
        }
      }
    }
  }

  /** The path `import_external_source` loads: the first existing one, otherwise the name itself. */
  function ResolvedPath(env: Environment, files: set<string>, fileName: string, order: seq<string>): string {
    var fn := NormalizeSeps(fileName, env.sep);
    var dirs := SearchPathList(Dirname(env.nifFilePath, env.sep), env.textureDirectory, env.cwd, env.sep);
    match FirstExisting(env, files, dirs, Candidates(fn, order))
    case Some(p) => p
    case None => fn
  }

  /** The directory list of `import_external_source`, built by appending. */
  method BuildSearchPathList(env: Environment) returns (searchPathList: seq<string>)
    ensures searchPathList == SearchPathList(Dirname(env.nifFilePath, env.sep), env.textureDirectory, env.cwd, env.sep)
  {
    var importPath := Dirname(env.nifFilePath, env.sep);
    searchPathList := [importPath];
    if env.textureDirectory != "" {
      searchPathList := searchPathList + [env.textureDirectory];
    }
    searchPathList := searchPathList + [Join(env.cwd, "nif", env.sep)];
    var meshesIndex := Find(Lower(importPath), "meshes");
    if meshesIndex != -1 {
      searchPathList := searchPathList + [importPath[..meshesIndex] + "textures"];
    }
    var artIndex := Find(Lower(importPath), "art");
    if artIndex != -1 {
      searchPathList := searchPathList + [importPath[..artIndex] + "shared"];
    }
  }

  /**
   * The search loop of `import_external_source`: it builds the directory
   * list by appending and returns from inside the nested loops at the
   * first path that exists; the fall-back is the normalised file name.
   * `order` is the iteration order of the set of extension variants, which
   * Python leaves unspecified.
   */
  method FindTexture(env: Environment, files: set<string>, fileName: string, order: seq<string>) returns (tex: string)
    requires IsEnumeration(order, VariantList(NormalizeSeps(fileName, env.sep)))
    ensures tex == ResolvedPath(env, files, fileName, order)
  {
    var fn := NormalizeSeps(fileName, env.sep);
    var searchPathList := BuildSearchPathList(env);
    ghost var all := Candidates(fn, order);
    var i := 0;
    while i < |searchPathList|
      invariant 0 <= i <= |searchPathList|
      invariant FirstExisting(env, files, searchPathList, all) == FirstExisting(env, files, searchPathList[i..], all)
    {
      var d := PrepareDir(searchPathList[i], env.sep);
      var texfns := [fn, Lower(fn)] + order;
      var j := 0;
      while j < |texfns|
        invariant 0 <= j <= |texfns|
        invariant FirstInDir(env, files, d, texfns) == FirstInDir(env, files, d, texfns[j..])
      {
        var probed := ProbePath(env, d, texfns[j]);
        if probed in files {
          tex := LoadPathOf(env, d, probed);
          assert searchPathList[i..][1..] == searchPathList[i + 1..];
          return;
        }
        assert texfns[j..][1..] == texfns[j + 1..];
        j := j + 1;
      }
      assert searchPathList[i..][1..] == searchPathList[i + 1..];
      i := i + 1;
    }
    tex := fn;
  }

  // ---------------------------------------------------------------- generated names

  /** `f"image{n:0>4d}.dds"`. */
  function ImageName(n: nat): string {
    "image" + ZeroPad(NatToString(n), 4) + ".dds"
  }

  /** Distinct counters give distinct generated names. */
  lemma ImageNamesDistinct(m: nat, n: nat)
    requires ImageName(m) == ImageName(n)
    ensures m == n
  {
    var a := ZeroPad(NatToString(m), 4);
    var b := ZeroPad(NatToString(n), 4);
    assert ImageName(m)[5..|ImageName(m)| - 4] == a;
    assert ImageName(n)[5..|ImageName(n)| - 4] == b;
    ParseZeroPad(m, 4);
    ParseZeroPad(n, 4);
  }

  function ImagePath(dir: string, n: nat, sep: char): string {
    Join(dir, ImageName(n), sep)
  }

  /**
   * The counter `generate_image_name` stops at when started from `k`: the
   * lowest n < 10000 whose file does not exist, or 9999 when they all do.
   */
  function FirstFreeFrom(files: set<string>, dir: string, sep: char, k: nat): (n: nat)
    requires k <= 9999
    ensures k <= n <= 9999
    ensures forall m :: k <= m < n ==> ImagePath(dir, m, sep) in files
    ensures n < 9999 ==> ImagePath(dir, n, sep) !in files
    decreases 9999 - k
  {
    if k == 9999 || ImagePath(dir, k, sep) !in files then k
    else FirstFreeFrom(files, dir, sep, k + 1)
  }

  /** `generate_image_name`: counts up until a generated name is free. */
  method GenerateImageName(dir: string, sep: char, files: set<string>) returns (tex: string)
    ensures tex == ImagePath(dir, FirstFreeFrom(files, dir, sep, 0), sep)
  {
    var n := 0;
    tex := "";
    while n < 10000
      invariant 0 <= n <= 10000
      invariant n < 10000 ==> FirstFreeFrom(files, dir, sep, 0) == FirstFreeFrom(files, dir, sep, n)
      invariant n == 10000 ==> FirstFreeFrom(files, dir, sep, 0) == 9999 && tex == ImagePath(dir, 9999, sep)
    {
      var fn := ImageName(n);
      tex := Join(dir, fn, sep);
      if tex !in files {
        break;
      }
      n := n + 1;
    }
  }

  // ---------------------------------------------------------------- the loader

  /** Whether the host can load `p`: a "//"-relative path is looked up after expansion. */
  function LoadSucceeds(env: Environment, files: set<string>, p: string): bool {
    if StartsWith(p, "//") then env.absPath(p) in files else p in files
  }

  /** The image `load_image(p)` returns: the cached one, the loaded file, or a placeholder. */
  function LoadedImage(env: Environment, images: map<string, Image>, files: set<string>, p: string): (img: Image)
    ensures Basename(p, env.sep) in images ==> img == images[Basename(p, env.sep)]
    ensures Basename(p, env.sep) !in images ==>
              img.name == Basename(p, env.sep) && img.filepath == p && (img.placeholder <==> !LoadSucceeds(env, files, p))
  {
    var name := Basename(p, env.sep);
    if name in images then images[name] else Image(name, p, !LoadSucceeds(env, files, p))
  }

  /** The image cache after `load_image(p)`: unchanged on a hit, otherwise extended by the new image. */
  function CacheAfterLoad(env: Environment, images: map<string, Image>, files: set<string>, p: string): (r: map<string, Image>)
    ensures Basename(p, env.sep) in images ==> r == images
    ensures Basename(p, env.sep) !in images ==> r == images[Basename(p, env.sep) := LoadedImage(env, images, files, p)]
  {
    var name := Basename(p, env.sep);
    if name in images then images else images[name := LoadedImage(env, images, files, p)]
  }

  /** The path the external search for `fileName` settles on, with the loader's variant order. */
  function ExternalPath(env: Environment, files: set<string>, fileName: string): string {
    ResolvedPath(env, files, fileName, DefaultOrder(fileName, env.sep))
  }

  /**
   * The image an external lookup of `fileName` yields: the cached image
   * when the basename of the resolved path is known, otherwise a new image
   * at that path, a placeholder when the host cannot load it.
   */
  function ExternalImage(env: Environment, images: map<string, Image>, files: set<string>, fileName: string): (img: Image)
    ensures var p := ExternalPath(env, files, fileName);
            Basename(p, env.sep) in images ==> img == images[Basename(p, env.sep)]
    ensures var p := ExternalPath(env, files, fileName);
            Basename(p, env.sep) !in images ==>
              img == Image(Basename(p, env.sep), p, !LoadSucceeds(env, files, p))
  {
    LoadedImage(env, images, files, ExternalPath(env, files, fileName))
  }

  /** Where an embedded texture is written: next to the NIF file, under a generated name when it has none. */
  function EmbeddedPath(env: Environment, files: set<string>, source: SourceTexture): string {
    var dir := Dirname(env.nifFilePath, env.sep);
    if source.fileName == "" then ImagePath(dir, FirstFreeFrom(files, dir, env.sep, 0), env.sep)
    else Join(dir, source.fileName, env.sep)
  }

  /** The variant order the loader uses for `fileName`. */
  function DefaultOrder(fileName: string, sep: char): (order: seq<string>)
    ensures IsEnumeration(order, VariantList(NormalizeSeps(fileName, sep)))
  {
    Dedup(VariantList(NormalizeSeps(fileName, sep)))
  }

  /** A texture source that names something: a NiSourceTexture, or a non-empty path. */
  predicate HasSource(source: TextureSource) {
    source.SourceBlock? || (source.PathString? && source.path != "")
  }

  /** An internal NiSourceTexture with embedded textures enabled: the texture is written to disk. */
  predicate EmbeddedCase(env: Environment, source: TextureSource) {
    source.SourceBlock? && !source.block.useExternal && env.useEmbeddedTexture
  }

  /** The file name the external search starts from. */
  function ExternalName(source: TextureSource): string
    requires HasSource(source)
  {
    if source.SourceBlock? then source.block.fileName else source.path
  }

  // ---------------------------------------------------------------- importing, as a specification

  /** What an import reads and changes: the written embedded textures, the host's images and the files on disk. */
  datatype LoaderState = LoaderState(externalTextures: set<string>, images: map<string, Image>, files: set<string>)

  /** Where an embedded source is written, seen from the state before the import. */
  function EmbeddedTarget(env: Environment, st: LoaderState, source: TextureSource): string
    requires EmbeddedCase(env, source)
  {
    EmbeddedPath(env, st.files, source.block)
  }

  /** The files on disk after writing the embedded texture at `path` unless it was written before. */
  function FilesAfterStore(st: LoaderState, path: string): (r: set<string>)
    ensures st.files <= r <= st.files + {path}
    ensures path in st.externalTextures ==> r == st.files
    ensures path !in st.externalTextures ==> path in r
  {
    if path in st.externalTextures then st.files else st.files + {path}
  }

  /**
   * The state after `import_texture_source(source)`: unchanged without a
   * source; for the embedded case the path is remembered, the file written
   * if new and the image cached; otherwise only the image cache changes.
   */
  function StateAfterImport(env: Environment, st: LoaderState, source: TextureSource): (r: LoaderState)
    ensures !HasSource(source) ==> r == st
    ensures !EmbeddedCase(env, source) ==> r.externalTextures == st.externalTextures && r.files == st.files
    ensures HasSource(source) && !EmbeddedCase(env, source) ==>
              r.images == CacheAfterLoad(env, st.images, st.files, ExternalPath(env, st.files, ExternalName(source)))
    ensures EmbeddedCase(env, source) ==>
              var path := EmbeddedTarget(env, st, source);
              && r.externalTextures == st.externalTextures + {path}
              && r.files == FilesAfterStore(st, path)
              && r.images == CacheAfterLoad(env, st.images, r.files, path)
  {
    if !HasSource(source) then st
    else if EmbeddedCase(env, source) then
      var path := EmbeddedTarget(env, st, source);
      var files := FilesAfterStore(st, path);
      LoaderState(st.externalTextures + {path}, CacheAfterLoad(env, st.images, files, path), files)
    else
      st.(images := CacheAfterLoad(env, st.images, st.files, ExternalPath(env, st.files, ExternalName(source))))
  }

  /** The image `import_texture_source(source)` returns. */
  function ImportedImage(env: Environment, st: LoaderState, source: TextureSource): (img: Option<Image>)
    ensures img.None? <==> !HasSource(source)
    ensures HasSource(source) && !EmbeddedCase(env, source) ==>
              img == Some(ExternalImage(env, st.images, st.files, ExternalName(source)))
    ensures EmbeddedCase(env, source) ==>
              var path := EmbeddedTarget(env, st, source);
              img == Some(LoadedImage(env, st.images, FilesAfterStore(st, path), path))
  {
    if !HasSource(source) then None
    else if EmbeddedCase(env, source) then
      var path := EmbeddedTarget(env, st, source);
      Some(LoadedImage(env, st.images, FilesAfterStore(st, path), path))
    else Some(ExternalImage(env, st.images, st.files, ExternalName(source)))
  }

  /** The files an import writes: the embedded path when it is new, nothing otherwise. */
  function WrittenByImport(env: Environment, st: LoaderState, source: TextureSource): (w: seq<string>)
    ensures |w| <= 1
    ensures w != [] <==> EmbeddedCase(env, source) && EmbeddedTarget(env, st, source) !in st.externalTextures
  {
    if EmbeddedCase(env, source) && EmbeddedTarget(env, st, source) !in st.externalTextures
    then [EmbeddedTarget(env, st, source)] else []
  }

  /**
   * Importing a source a second time returns the same image and changes
   * nothing more, unless it is an embedded texture without a name, which
   * always gets a generated name of its own.
   */
  lemma ImportTwice(env: Environment, st: LoaderState, source: TextureSource)
    requires !(EmbeddedCase(env, source) && source.block.fileName == "")
    ensures var st1 := StateAfterImport(env, st, source);
            && ImportedImage(env, st1, source) == ImportedImage(env, st, source)
            && StateAfterImport(env, st1, source) == st1
            && WrittenByImport(env, st1, source) == []
  {
    var st1 := StateAfterImport(env, st, source);
    if EmbeddedCase(env, source) {
      assert EmbeddedTarget(env, st1, source) == EmbeddedTarget(env, st, source);
    } else if HasSource(source) {
      assert ExternalPath(env, st1.files, ExternalName(source)) == ExternalPath(env, st.files, ExternalName(source));
    }
  }

  /**
   * A second embedded texture without a name is written to a file other
   * than the first one's, as long as a free generated name was left.
   */
  lemma UnnamedEmbeddedFresh(env: Environment, st: LoaderState, source: TextureSource)
    requires EmbeddedCase(env, source) && source.block.fileName == ""
    requires st.externalTextures <= st.files
    requires FirstFreeFrom(st.files, Dirname(env.nifFilePath, env.sep), env.sep, 0) < 9999
    ensures var st1 := StateAfterImport(env, st, source);
            && EmbeddedTarget(env, st1, source) != EmbeddedTarget(env, st, source)
            && WrittenByImport(env, st, source) == [EmbeddedTarget(env, st, source)]
            && st1.externalTextures <= st1.files
  {
    var dir := Dirname(env.nifFilePath, env.sep);
    var n1 := FirstFreeFrom(st.files, dir, env.sep, 0);
    var p1 := ImagePath(dir, n1, env.sep);
    assert p1 == EmbeddedTarget(env, st, source);
    assert StateAfterImport(env, st, source).files == st.files + {p1};
    NextFreeDiffers(st.files, dir, env.sep);
  }

  /** Once the first free generated name is taken, the next search finds another. */
  lemma NextFreeDiffers(files: set<string>, dir: string, sep: char)
    requires FirstFreeFrom(files, dir, sep, 0) < 9999
    ensures var p1 := ImagePath(dir, FirstFreeFrom(files, dir, sep, 0), sep);
            ImagePath(dir, FirstFreeFrom(files + {p1}, dir, sep, 0), sep) != p1
  {
    var n1 := FirstFreeFrom(files, dir, sep, 0);
    var p1 := ImagePath(dir, n1, sep);
    var n2 := FirstFreeFrom(files + {p1}, dir, sep, 0);
    if ImagePath(dir, n2, sep) == p1 {
      assert n2 == 9999;
      ImageNameLeadingChar(n1);
      ImageNameLeadingChar(n2);
      JoinInjective(dir, ImageName(n1), ImageName(n2), sep);
      ImageNamesDistinct(n1, n2);
    }
  }

  lemma ImageNameLeadingChar(n: nat)
    ensures |ImageName(n)| > 0 && ImageName(n)[0] == 'i'
  {
  }

  /**
   * The state every `TextureLoader` shares: `external_textures` is a class
   * attribute, and the image cache and the disk belong to the host. One
   * object of this class stands for all loaders of a session, so every
   * node wrapper is given the same one.
   */
  class TextureLoader {
    /** The class attribute `external_textures`: embedded textures written so far in the session. */
    var externalTextures: set<string>
    /** The host's images, by name. */
    var images: map<string, Image>
    /** The paths that exist on disk. */
    var files: set<string>
    /** Every embedded texture written to disk, in order. */
    ghost var written: seq<string>

    ghost predicate Valid()
      reads this`written, this`externalTextures, this`files
    {
      && (forall i, j :: 0 <= i < j < |written| ==> written[i] != written[j])
      && (forall x :: x in written ==> x in externalTextures && x in files)
      && externalTextures <= files
    }

    function State(): LoaderState
      reads this
    {
      LoaderState(externalTextures, images, files)
    }

    /** The session's start, when the class attribute is first created empty. */
    constructor(images0: map<string, Image>, files0: set<string>)
      ensures Valid()
      ensures externalTextures == {} && images == images0 && files == files0 && written == []
    {
      externalTextures := {};
      images := images0;
      files := files0;
      written := [];
    }

    /** `load_image`: the cached image when the basename is known, otherwise a new image or placeholder. */
    method LoadImage(env: Environment, texPath: string) returns (img: Image)
      modifies this`images
      ensures img == LoadedImage(env, old(images), files, texPath)
      ensures images == CacheAfterLoad(env, old(images), files, texPath)
    {
      var name := Basename(texPath, env.sep);
      if name !in images {
        if LoadSucceeds(env, files, texPath) {
          img := Image(name, texPath, false);
        } else {
          img := Image(name, texPath, true);
        }
        images := images[name := img];
      } else {
        img := images[name];
      }
    }

    /**
     * `import_embedded_texture_source`: the texture goes next to the NIF
     * file under its own name, or under a generated name when it has none;
     * it is written only if it was not written before in this run.
     */
    method ImportEmbeddedTextureSource(env: Environment, source: SourceTexture) returns (img: Image)
      requires Valid()
      modifies this
      ensures Valid()
      ensures var path := EmbeddedPath(env, old(files), source);
        && externalTextures == old(externalTextures) + {path}
        && (path in old(externalTextures) ==> files == old(files) && written == old(written))
        && (path !in old(externalTextures) ==> files == old(files) + {path} && written == old(written) + [path])
        && img == LoadedImage(env, old(images), files, path)
        && images == CacheAfterLoad(env, old(images), files, path)
    {
      var texPath := EmbeddedTexturePath(env, source);
      img := StoreAndLoad(env, texPath);
    }

    /** Writing the texture at `texPath` unless it was written before, then loading it. */
    method StoreAndLoad(env: Environment, texPath: string) returns (img: Image)
      requires Valid()
      modifies this
      ensures Valid()
      ensures externalTextures == old(externalTextures) + {texPath}
      ensures texPath in old(externalTextures) ==> files == old(files) && written == old(written)
      ensures texPath !in old(externalTextures) ==> files == old(files) + {texPath} && written == old(written) + [texPath]
      ensures img == LoadedImage(env, old(images), files, texPath)
      ensures images == CacheAfterLoad(env, old(images), files, texPath)
    {
      if texPath in externalTextures {
        img := LoadImage(env, texPath);
        return;
      }
      img := WriteAndLoad(env, texPath);
    }

    /** Writing a texture not written before, then loading it. */
    method WriteAndLoad(env: Environment, texPath: string) returns (img: Image)
      requires Valid() && texPath !in externalTextures
      modifies this
      ensures Valid()
      ensures externalTextures == old(externalTextures) + {texPath}
      ensures files == old(files) + {texPath} && written == old(written) + [texPath]
      ensures img == LoadedImage(env, old(images), files, texPath)
      ensures images == CacheAfterLoad(env, old(images), files, texPath)
    {
      WriteTexture(texPath);
      img := LoadImage(env, texPath);
    }

    /** Where `import_embedded_texture_source` writes the texture. */
    method EmbeddedTexturePath(env: Environment, source: SourceTexture) returns (texPath: string)
      ensures texPath == EmbeddedPath(env, files, source)
    {
      var texName := source.fileName;
      var dir := Dirname(env.nifFilePath, env.sep);
      texPath := Join(dir, texName, env.sep);
      if texName == "" {
        texPath := GenerateImageName(dir, env.sep, files);
      }
    }

    /** Saving the pixel data as a .dds file at `texPath` and remembering it. */
    method WriteTexture(texPath: string)
      requires Valid() && texPath !in externalTextures
      modifies this`files, this`written, this`externalTextures
      ensures Valid()
      ensures files == old(files) + {texPath} && written == old(written) + [texPath]
      ensures externalTextures == old(externalTextures) + {texPath}
    {
      files := files + {texPath};
      written := written + [texPath];
      externalTextures := externalTextures + {texPath};
    }

    /** `import_external_source` for a NiSourceTexture's file name or a bare path. */
    method ImportExternalSource(env: Environment, fileName: string) returns (img: Image)
      modifies this`images
      ensures img == ExternalImage(env, old(images), files, fileName)
      ensures images == CacheAfterLoad(env, old(images), files, ExternalPath(env, files, fileName))
    {
      var order := DefaultOrder(fileName, env.sep);
      var tex := FindTexture(env, files, fileName, order);
      img := LoadImage(env, tex);
    }

    /** The branches of `import_texture_source` that change only the image cache. */
    method ImportNonEmbedded(env: Environment, source: TextureSource) returns (img: Option<Image>)
      requires !EmbeddedCase(env, source)
      modifies this`images
      ensures !HasSource(source) ==> img.None? && images == old(images)
      ensures HasSource(source) ==> img == Some(ExternalImage(env, old(images), files, ExternalName(source)))
      ensures HasSource(source) ==> images == CacheAfterLoad(env, old(images), files, ExternalPath(env, files, ExternalName(source)))
    {
      match source
      case NoSource =>
        img := None;
      case PathString(p) =>
        if p == "" {
          img := None;
        } else {
          var i := ImportExternalSource(env, p);
          img := Some(i);
        }
      case SourceBlock(b) =>
        var i := ImportExternalSource(env, b.fileName);
        img := Some(i);
    }

    /**
     * `import_texture_source`: nothing for a missing source (or an empty
     * path, which is falsy); the embedded branch only for a NiSourceTexture
     * that is not external when the option is on; the search otherwise.
     */
    method ImportTextureSource(env: Environment, source: TextureSource) returns (img: Option<Image>)
      requires Valid()
      modifies this
      ensures Valid()
      ensures !HasSource(source) ==>
                img.None? && externalTextures == old(externalTextures) && images == old(images) && files == old(files)
      ensures EmbeddedCase(env, source) ==>
                var path := EmbeddedPath(env, old(files), source.block);
                && externalTextures == old(externalTextures) + {path}
                && (path in old(externalTextures) ==> files == old(files) && written == old(written))
                && (path !in old(externalTextures) ==> files == old(files) + {path} && written == old(written) + [path])
                && img == Some(LoadedImage(env, old(images), files, path))
                && images == CacheAfterLoad(env, old(images), files, path)
      ensures HasSource(source) && !EmbeddedCase(env, source) ==>
                && externalTextures == old(externalTextures) && files == old(files) && written == old(written)
                && img == Some(ExternalImage(env, old(images), files, ExternalName(source)))
                && images == CacheAfterLoad(env, old(images), files, ExternalPath(env, files, ExternalName(source)))
      ensures img == ImportedImage(env, old(State()), source) && State() == StateAfterImport(env, old(State()), source)
      ensures written == old(written) + WrittenByImport(env, old(State()), source)
    {
      if EmbeddedCase(env, source) {
        var i := ImportEmbeddedTextureSource(env, source.block);
        img := Some(i);
        return;
      }
      img := ImportNonEmbedded(env, source);
    }
  }
}
