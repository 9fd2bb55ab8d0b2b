/** The argument vector of the `docker buildx build` call that bakes the cache
    into an image, and a reader that recovers what it asks for. */
module BuildArgs {
  import opened Paths

  /** The fixed local tag of the intermediate image. */
  const ImageTag: string := "dance:extract"

  /** Where the Dancefile is written, and where the build reads it from. */
  function DancefilePath(scratchDir: string): string {
    Join(scratchDir, "Dancefile.extract")
  }

  /** The arguments after `docker`: `--builder <name>` only when the builder
      is a non-empty string (JavaScript truthiness), then the build file, the
      tag, the request to load the image into the local store, and the scratch
      directory as the build context. */
  function ExtractArgs(scratchDir: string, builder: string): seq<string> {
    ["buildx", "build"]
    + (if builder != "" then ["--builder", builder] else [])
    + ["-f", DancefilePath(scratchDir), "--tag", ImageTag, "--load", scratchDir]
  }

  /** The build arguments start with `buildx build`, name the builder right
      after that exactly when it is a non-empty string, and end with the
      scratch directory as the build context. */
  lemma ExtractArgsShape(scratchDir: string, builder: string)
    ensures var r := ExtractArgs(scratchDir, builder);
      && |r| == (if builder == "" then 8 else 10)
      && r[..2] == ["buildx", "build"]
      && (r[2] == "--builder" <==> builder != "")
      && (builder != "" ==> r[3] == builder)
      && r[|r| - 1] == scratchDir
  {
  }

  datatype Option<T> = None | Some(value: T)

  /** What a build invocation asks for. */
  datatype BuildRequest = BuildRequest(
    builder: Option<string>,
    file: Option<string>,
    tag: Option<string>,
    load: bool,
    context: Option<string>)

  /** An argument that reads as an option rather than as the build context. */
  predicate IsOption(arg: string) {
    |arg| > 0 && arg[0] == '-'
  }

  /** Reads `buildx build` arguments the way the command line does: the
      options `--builder`, `-f` and `--tag` take the next argument as their
      value, `--load` stands alone, any other argument starting with `-` is
      rejected, and a single other argument is the build context. */
  function ReadBuild(args: seq<string>): Option<BuildRequest> {
    if |args| < 2 || args[0] != "buildx" || args[1] != "build" then None
    else ReadOptions(args[2..], BuildRequest(None, None, None, false, None))
  }

  function ReadOptions(args: seq<string>, acc: BuildRequest): Option<BuildRequest>
    decreases |args|
  {
    if args == [] then Some(acc)
    else if args[0] == "--builder" || args[0] == "-f" || args[0] == "--tag" then
      if |args| < 2 then None
      else
        var v := args[1];
        var acc' := if args[0] == "--builder" then acc.(builder := Some(v))
                    else if args[0] == "-f" then acc.(file := Some(v))
                    else acc.(tag := Some(v));
        ReadOptions(args[2..], acc')
    else if args[0] == "--load" then ReadOptions(args[1..], acc.(load := true))
    else if IsOption(args[0]) || acc.context.Some? then None
    else ReadOptions(args[1..], acc.(context := Some(args[0])))
  }

  /** Read back, the build arguments select the named builder exactly when one
      is given, build from the Dancefile in the scratch directory, tag the image
      `dance:extract`, load it, and use the scratch directory as context. A
      scratch directory that starts with `-` would be read as an option. */
  lemma ExtractArgsRead(scratchDir: string, builder: string)
    requires !IsOption(scratchDir)
    ensures ReadBuild(ExtractArgs(scratchDir, builder))
         == Some(BuildRequest(if builder == "" then None else Some(builder),
                              Some(DancefilePath(scratchDir)), Some(ImageTag), true, Some(scratchDir)))
  {
    var args := ExtractArgs(scratchDir, builder);
    var tail := ["-f", DancefilePath(scratchDir), "--tag", ImageTag, "--load", scratchDir];
    var acc := BuildRequest(if builder == "" then None else Some(builder), None, None, false, None);
    if builder != "" {
      assert args[2..] == ["--builder", builder] + tail;
      assert args[2..][2..] == tail;
    } else {
      assert args[2..] == tail;
    }
    assert ReadOptions(args[2..], BuildRequest(None, None, None, false, None)) == ReadOptions(tail, acc);
    var acc1 := acc.(file := Some(DancefilePath(scratchDir)));
    var acc2 := acc1.(tag := Some(ImageTag));
    var acc3 := acc2.(load := true);
    assert tail[2..] == ["--tag", ImageTag, "--load", scratchDir];
    assert ReadOptions(tail, acc) == ReadOptions(tail[2..], acc1);
    assert tail[2..][2..] == ["--load", scratchDir];
    assert ReadOptions(tail[2..], acc1) == ReadOptions(tail[2..][2..], acc2);
    assert tail[2..][2..][1..] == [scratchDir];
    assert ReadOptions(tail[2..][2..], acc2) == ReadOptions([scratchDir], acc3);
    assert scratchDir != "--builder" && scratchDir != "-f" && scratchDir != "--tag" && scratchDir != "--load";
    assert [scratchDir][1..] == [];
    assert ReadOptions([scratchDir], acc3) == ReadOptions([], acc3.(context := Some(scratchDir)));
  }
}
