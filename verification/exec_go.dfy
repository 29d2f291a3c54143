/**
  The Go package around the intermediary: the argument vector it launches
  the intermediary with, the table of supported platforms, the name of the
  embedded binary for a platform, and the error and success paths of the
  extraction.  File system calls, decompression and `sync.Once` are replaced
  by their outcomes, given as inputs.
*/
module Exec {
  import opened Common
  import Launcher

  /** A Go `context.Context`; only its identity matters here. */
  datatype Context = Background | Derived(id: int)

  /** The parts of an `exec.Cmd` the package sets: the context, the program
      path and the full argument vector (whose first entry is the path). */
  datatype Cmd = Cmd(ctx: Context, path: string, args: seq<string>)

  /** The outcome of `extractBinary`: the error it returned, the embedded
      asset it opened (if it got that far), and the value `extractedPath`
      holds afterwards. */
  datatype Extraction = Extraction(err: Option<string>, asset: Option<string>, path: string)

  /** Builds the command for the intermediary at `ext.path`, passing `name`
      and then `arg`.  An extraction error panics, modelled as `Err`. */
  function CommandContext(ctx: Context, ext: Extraction, name: string, arg: seq<string>): (r: Result<Cmd, string>)
    ensures r.Err? <==> ext.err.Some?
    ensures r.Ok? ==> r.value.ctx == ctx && r.value.path == ext.path
    ensures r.Ok? ==> |r.value.args| == |arg| + 2 && r.value.args[0] == ext.path
    ensures r.Ok? ==> r.value.args[1] == name && r.value.args[2..] == arg
  {
    match ext.err
    case Some(e) => Err(e)
    case None => Ok(Cmd(ctx, ext.path, [ext.path] + ([name] + arg)))
  }

  /** `Command` is `CommandContext` with the background context. */
  function Command(ext: Extraction, name: string, arg: seq<string>): (r: Result<Cmd, string>)
    ensures r == CommandContext(Background, ext, name, arg)
    ensures r.Ok? ==> r.value.ctx == Background
  {
    CommandContext(Background, ext, name, arg)
  }

  /** The caller's arguments reach the target verbatim: the intermediary
      drops only its own argv[0], so the target runs `name` with the
      argument vector `name, arg...`.  If the target cannot be executed the
      final child exits 1 instead. */
  lemma {:induction false} ArgumentsReachTarget(ctx: Context, ext: Extraction, name: string, arg: seq<string>)
    requires ext.err.None?
    ensures CommandContext(ctx, ext, name, arg).Ok?
    ensures Launcher.ExecProgram(CommandContext(ctx, ext, name, arg).value.args, true)
            == Launcher.Image(name, [name] + arg)
    ensures Launcher.ExecProgram(CommandContext(ctx, ext, name, arg).value.args, false)
            == Launcher.Died(1)
  {
    var args := CommandContext(ctx, ext, name, arg).value.args;
    assert args[1..] == [name] + arg;
  }

  /** `targetMap`: the four supported `GOARCH-GOOS` keys and the name each
      uses for its embedded binary. */
  const TargetMap: map<string, string> := map[
    "arm64-linux" := "aarch64-linux",
    "amd64-linux" := "x86_64-linux",
    "arm64-darwin" := "aarch64-macos",
    "amd64-darwin" := "x86_64-macos"
  ]

  /** The lookup key for a platform. */
  function PlatformKey(goarch: string, goos: string): (k: string)
    ensures |k| == |goarch| + 1 + |goos| && k[|goarch|] == '-'
    ensures k[..|goarch|] == goarch && k[|goarch| + 1..] == goos
  {
    goarch + "-" + goos
  }

  /** The binary name for a platform, if it is supported. */
  function LookupTarget(goarch: string, goos: string): (t: Option<string>)
    ensures t.Some? <==> PlatformKey(goarch, goos) in TargetMap
    ensures t.Some? ==> t.value in TargetMap.Values
  {
    var key := PlatformKey(goarch, goos);
    if key in TargetMap then Some(TargetMap[key]) else None
  }

  /** Reference naming of the supported CPUs. */
  function CpuName(goarch: string): Option<string> {
    if goarch == "amd64" then Some("x86_64")
    else if goarch == "arm64" then Some("aarch64")
    else None
  }

  /** Reference naming of the supported operating systems. */
  function OsName(goos: string): Option<string> {
    if goos == "linux" then Some("linux")
    else if goos == "darwin" then Some("macos")
    else None
  }

  /** A key built from a CPU and an OS name that contain no dash can only be
      split one way. */
  lemma {:induction false} KeySplitsUniquely(goarch: string, goos: string, arch: string, os: string)
    requires '-' !in arch && '-' !in os
    requires PlatformKey(goarch, goos) == PlatformKey(arch, os)
    ensures goarch == arch && goos == os
  {
    var key := PlatformKey(arch, os);
    var k := |goarch|;
    assert key[k] == '-';
    if k < |arch| {
      assert false;
    } else if k > |arch| {
      assert false;
    }
    assert goarch == key[..k] == arch;
    assert goos == key[k + 1..] == os;
  }

  /** The platform table is exactly the product of the two reference
      namings: supported CPUs amd64 and arm64, supported systems linux and
      darwin, and nothing else. */
  lemma {:induction false} TargetMapIsProduct(goarch: string, goos: string)
    ensures LookupTarget(goarch, goos).Some? <==> CpuName(goarch).Some? && OsName(goos).Some?
    ensures LookupTarget(goarch, goos).Some? ==>
              LookupTarget(goarch, goos).value == CpuName(goarch).value + "-" + OsName(goos).value
  {
    if PlatformKey(goarch, goos) in TargetMap {
      TableEntryIsNamed(goarch, goos);
    } else if CpuName(goarch).Some? && OsName(goos).Some? {
      NamedPlatformInTable(goarch, goos);
    }
  }

  /** Every supported CPU and system pair has a key in the table. */
  lemma {:induction false} NamedPlatformInTable(goarch: string, goos: string)
    requires CpuName(goarch).Some? && OsName(goos).Some?
    ensures PlatformKey(goarch, goos) in TargetMap
  {
    if goarch == "amd64" && goos == "linux" {
      assert PlatformKey(goarch, goos) == "amd64-linux";
    } else if goarch == "amd64" {
      assert PlatformKey(goarch, goos) == "amd64-darwin";
    } else if goos == "linux" {
      assert PlatformKey(goarch, goos) == "arm64-linux";
    } else {
      assert PlatformKey(goarch, goos) == "arm64-darwin";
    }
  }

  /** Every key of the table is a supported CPU and system, and its entry is
      their reference names joined by a dash. */
  lemma {:induction false} TableEntryIsNamed(goarch: string, goos: string)
    requires PlatformKey(goarch, goos) in TargetMap
    ensures CpuName(goarch).Some? && OsName(goos).Some?
    ensures TargetMap[PlatformKey(goarch, goos)] == CpuName(goarch).value + "-" + OsName(goos).value
  {
    var key := PlatformKey(goarch, goos);
    if key == "arm64-linux" {
      KeySplitsUniquely(goarch, goos, "arm64", "linux");
    } else if key == "amd64-linux" {
      KeySplitsUniquely(goarch, goos, "amd64", "linux");
    } else if key == "arm64-darwin" {
      KeySplitsUniquely(goarch, goos, "arm64", "darwin");
    } else {
      KeySplitsUniquely(goarch, goos, "amd64", "darwin");
    }
  }

  const AssetPrefix: string := "intermediary/intermediary-"
  const AssetSuffix: string := ".gz"

  /** The embedded file holding the compressed binary for `target`. */
  function AssetPath(target: string): (p: string)
    ensures |p| == |AssetPrefix| + |target| + |AssetSuffix|
    ensures p[..|AssetPrefix|] == AssetPrefix && p[|p| - |AssetSuffix|..] == AssetSuffix
    ensures p[|AssetPrefix|..|p| - |AssetSuffix|] == target
  {
    AssetPrefix + target + AssetSuffix
  }

  /** Recovers the target from an embedded file name. */
  function AssetTarget(path: string): (t: Option<string>)
    ensures t.Some? ==> |path| >= |AssetPrefix| + |AssetSuffix|
  {
    if |path| >= |AssetPrefix| + |AssetSuffix|
       && path[..|AssetPrefix|] == AssetPrefix
       && path[|path| - |AssetSuffix|..] == AssetSuffix
    then Some(path[|AssetPrefix|..|path| - |AssetSuffix|])
    else None
  }

  /** Asset names and targets correspond one to one. */
  lemma {:induction false} AssetPathRoundTrip(target: string, path: string)
    ensures AssetTarget(AssetPath(target)) == Some(target)
    ensures AssetTarget(path).Some? ==> AssetPath(AssetTarget(path).value) == path
  {
    if AssetTarget(path).Some? {
      var t := AssetTarget(path).value;
      var n := |path|;
      assert path == path[..|AssetPrefix|] + t + path[n - |AssetSuffix|..];
    }
  }

  /** The outcomes of the system calls `extractBinary` makes, in order. */
  datatype Host = Host(
    tempFile: Result<string, string>,  // os.CreateTemp: the file name, or an error
    goarch: string,
    goos: string,
    openErr: Option<string>,           // binaries.Open
    gunzipErr: Option<string>,         // gzip.NewReader
    copyErr: Option<string>,           // io.Copy
    chmodErr: Option<string>)          // (*os.File).Chmod

  const UnsupportedPrefix: string := "unsupported architecture "

  /** The error for an unsupported platform: the fixed text followed by the
      platform's `GOARCH-GOOS` key. */
  function UnsupportedError(goarch: string, goos: string): (e: string)
    ensures |e| == |UnsupportedPrefix| + |PlatformKey(goarch, goos)|
    ensures e[..|UnsupportedPrefix|] == UnsupportedPrefix
    ensures e[|UnsupportedPrefix|..] == PlatformKey(goarch, goos)
  {
    UnsupportedPrefix + goarch + "-" + goos
  }

  /** `extractBinary`, starting from `extractedPath == prior`.  It creates
      the temporary file first, then looks up the platform, opens the asset,
      decompresses it into the file and makes it executable; the path is set
      only when every step succeeded. */
  function ExtractBinary(h: Host, prior: string): (x: Extraction)
    ensures x.err.None? <==>
              && h.tempFile.Ok?
              && LookupTarget(h.goarch, h.goos).Some?
              && h.openErr.None? && h.gunzipErr.None? && h.copyErr.None? && h.chmodErr.None?
    ensures x.err.None? ==> x.path == h.tempFile.value
    ensures h.tempFile.Err? ==> x.err == Some(h.tempFile.error)
    ensures h.tempFile.Ok? && LookupTarget(h.goarch, h.goos).Some? ==>
              x.err == (if h.openErr.Some? then h.openErr
                        else if h.gunzipErr.Some? then h.gunzipErr
                        else if h.copyErr.Some? then h.copyErr
                        else h.chmodErr)
    ensures x.err.Some? ==> x.path == prior
    ensures x.asset.Some? <==> h.tempFile.Ok? && LookupTarget(h.goarch, h.goos).Some?
    ensures x.asset.Some? ==> x.asset.value == AssetPath(LookupTarget(h.goarch, h.goos).value)
    ensures h.tempFile.Ok? && LookupTarget(h.goarch, h.goos).None? ==>
              x.err == Some(UnsupportedError(h.goarch, h.goos))
  {
    match h.tempFile
    case Err(e) => Extraction(Some(e), None, prior)
    case Ok(file) =>
      match LookupTarget(h.goarch, h.goos)
      case None => Extraction(Some(UnsupportedError(h.goarch, h.goos)), None, prior)
      case Some(target) =>
        var asset := Some(AssetPath(target));
        if h.openErr.Some? then Extraction(h.openErr, asset, prior)
        else if h.gunzipErr.Some? then Extraction(h.gunzipErr, asset, prior)
        else if h.copyErr.Some? then Extraction(h.copyErr, asset, prior)
        else if h.chmodErr.Some? then Extraction(h.chmodErr, asset, prior)
        else Extraction(None, asset, file)
  }
}
