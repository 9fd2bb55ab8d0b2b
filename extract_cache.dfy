/** The extraction pipeline for one cache source: stamp and Dancefile, image
    build, container, streamed copy-out, relocation. */
module Extraction {
  import opened Paths
  import opened Effects
  import opened Dancefile
  import opened BuildArgs

  /** The resolved options of one cache source: the path inside the build where
      the mount cache appears, and the mount specification for `RUN --mount=`. */
  datatype CacheOptions = CacheOptions(targetPath: string, mountArgs: string)

  /** The fixed name of the container the cache is copied out of. */
  const ContainerName: string := "cache-container"

  /** Removes any container left under the fixed name. */
  const ResetContainer: Command := Exec(Process("docker", ["rm", "-f", ContainerName]))

  /** Creates (without starting) the container from the built image, with a
      TTY allocated. */
  const CreateContainer: Command := Exec(Process("docker", ["create", "-ti", "--name", ContainerName, ImageTag]))

  /** Copies the cache root out of the container as an archive (following
      symbolic links) and unpacks it, POSIX format, into the scratch directory. */
  function CopyOut(scratchDir: string): Command {
    Pipe(Process("docker", ["cp", "-L", ContainerName + ":" + CacheRoot, "-"]),
         Process("tar", ["-H", "posix", "-x", "-C", scratchDir]))
  }

  /** Where the copied-out cache of `cacheSource` lands in the scratch
      directory: the archive's top directory is the last segment of the cache
      root. */
  function ExtractedDir(scratchDir: string, cacheSource: string): string {
    Join(Join(scratchDir, "dance-cache"), cacheSource)
  }

  /** Step `k` of one extraction, in the order the pipeline awaits them. Only the removal of a
      leftover container sits in a try/catch that swallows its failure. */
  function PlanStep(k: nat, cacheSource: string, options: CacheOptions, scratchDir: string,
                    containerImage: string, builder: string, stamp: string): Step
    requires k < 10
  {
    match k
    case 0 => Step(MakeDir(scratchDir), false)
    case 1 => Step(WriteFile(Join(scratchDir, "buildstamp"), stamp), false)
    case 2 => Step(WriteFile(DancefilePath(scratchDir),
                             Render(containerImage, options.mountArgs, options.targetPath, cacheSource)), false)
    case 3 => Step(Exec(Process("docker", ExtractArgs(scratchDir, builder))), false)
    case 4 => Step(ResetContainer, true)
    case 5 => Step(CreateContainer, false)
    case 6 => Step(CopyOut(scratchDir), false)
    case 7 => Step(ReadDir(ExtractedDir(scratchDir, cacheSource)), false)
    case 8 => Step(Exec(Process("sudo", ["rm", "-rf", cacheSource])), false)
    case 9 => Step(Rename(ExtractedDir(scratchDir, cacheSource), cacheSource), false)
  }

  /** The awaited steps of one extraction. */
  function Plan(cacheSource: string, options: CacheOptions, scratchDir: string,
                containerImage: string, builder: string, stamp: string): seq<Step>
  {
    seq(10, k requires 0 <= k < 10 => PlanStep(k, cacheSource, options, scratchDir, containerImage, builder, stamp))
  }

  /** Step `k` of the plan is `PlanStep(k, ...)`. */
  lemma PlanSteps(cacheSource: string, options: CacheOptions, scratchDir: string,
                  containerImage: string, builder: string, stamp: string)
    ensures var plan := Plan(cacheSource, options, scratchDir, containerImage, builder, stamp);
            |plan| == 10 &&
            forall k :: 0 <= k < 10 ==> plan[k] == PlanStep(k, cacheSource, options, scratchDir, containerImage, builder, stamp)
  {
  }

  /** Extracts one cache source, issuing each effect in turn. `stamp` is the
      time read at the start; `history` is everything issued before this run;
      `succeeds` decides each outcome. Returns what was issued and how the
      run ended. */
  method ExtractCache(cacheSource: string, options: CacheOptions, scratchDir: string,
                      containerImage: string, builder: string, stamp: string,
                      history: seq<Command>, succeeds: Oracle)
    returns (trace: seq<Command>, status: Status)
    ensures Run(trace, status) == Execute(Plan(cacheSource, options, scratchDir, containerImage, builder, stamp), history, succeeds)
  {
    ghost var plan := Plan(cacheSource, options, scratchDir, containerImage, builder, stamp);
    PlanSteps(cacheSource, options, scratchDir, containerImage, builder, stamp);
    var ok;
    trace := [];
    assert history + trace == history;

    // Prepare the timestamp for layer cache busting.
    var c := MakeDir(scratchDir);
    trace, ok := Await(plan, 0, c, false, history, trace, succeeds);
    if !ok { return trace, Failed(c); }
    c := WriteFile(Join(scratchDir, "buildstamp"), stamp);
    trace, ok := Await(plan, 1, c, false, history, trace, succeeds);
    if !ok { return trace, Failed(c); }

    // Prepare the Dancefile that reaches the cache.
    c := WriteFile(DancefilePath(scratchDir), Render(containerImage, options.mountArgs, options.targetPath, cacheSource));
    trace, ok := Await(plan, 2, c, false, history, trace, succeeds);
    if !ok { return trace, Failed(c); }

    // Bake the cache contents into an image.
    c := Exec(Process("docker", ExtractArgs(scratchDir, builder)));
    trace, ok := Await(plan, 3, c, false, history, trace, succeeds);
    if !ok { return trace, Failed(c); }

    // Remove a leftover container; its failure is ignored.
    trace, ok := Await(plan, 4, ResetContainer, true, history, trace, succeeds);
    c := CreateContainer;
    trace, ok := Await(plan, 5, c, false, history, trace, succeeds);
    if !ok { return trace, Failed(c); }

    // Unpack the container's cache root into the scratch directory.
    c := CopyOut(scratchDir);
    trace, ok := Await(plan, 6, c, false, history, trace, succeeds);
    if !ok { return trace, Failed(c); }
    c := ReadDir(ExtractedDir(scratchDir, cacheSource));
    trace, ok := Await(plan, 7, c, false, history, trace, succeeds);
    if !ok { return trace, Failed(c); }

    // Move the cache into its place.
    c := Exec(Process("sudo", ["rm", "-rf", cacheSource]));
    trace, ok := Await(plan, 8, c, false, history, trace, succeeds);
    if !ok { return trace, Failed(c); }
    c := Rename(ExtractedDir(scratchDir, cacheSource), cacheSource);
    trace, ok := Await(plan, 9, c, false, history, trace, succeeds);
    if !ok { return trace, Failed(c); }
    status := Done;
  }

  /** Only the removal of a leftover container, the fifth step, ignores its
      failure. */
  lemma OnlyRemovalIgnored(cacheSource: string, options: CacheOptions, scratchDir: string,
                           containerImage: string, builder: string, stamp: string, j: nat)
    requires j < 10
    ensures PlanStep(j, cacheSource, options, scratchDir, containerImage, builder, stamp).ignoreFailure <==> j == 4
  {
  }

  /** No other step issues the command that removes a leftover container. */
  lemma ResetOnlyAtRemoval(cacheSource: string, options: CacheOptions, scratchDir: string,
                           containerImage: string, builder: string, stamp: string, j: nat)
    requires j < 10
    ensures PlanStep(j, cacheSource, options, scratchDir, containerImage, builder, stamp).cmd == ResetContainer <==> j == 4
  {
    if j == 3 {
      assert ExtractArgs(scratchDir, builder)[0] != ResetContainer.process.args[0];
    }
  }

  /** How one extraction ends. It issues the steps of its plan in order and
      nothing else; it finishes only after all ten; a failed run ends with the
      step that failed, which is never the removal of a leftover container;
      and every step before the end succeeded (the first `n` commands issued
      leave a history whose last command succeeded), except that removal,
      whose outcome is not looked at. */
  lemma ExtractCacheOutcome(cacheSource: string, options: CacheOptions, scratchDir: string,
                            containerImage: string, builder: string, stamp: string,
                            history: seq<Command>, succeeds: Oracle, r: Run)
    requires r == Execute(Plan(cacheSource, options, scratchDir, containerImage, builder, stamp), history, succeeds)
    ensures |r.trace| <= 10
    ensures forall j :: 0 <= j < |r.trace| ==>
              r.trace[j] == PlanStep(j, cacheSource, options, scratchDir, containerImage, builder, stamp).cmd
    ensures r.status == Done ==> |r.trace| == 10
    ensures r.status.Failed? ==>
              && 1 <= |r.trace| && |r.trace| != 5
              && r.status.at == r.trace[|r.trace| - 1]
              && !succeeds(history + r.trace)
    ensures forall n :: 1 <= n <= |r.trace| && n != 5 && (r.status == Done || n < |r.trace|) ==>
              succeeds(history + r.trace[..n])
  {
    var plan := Plan(cacheSource, options, scratchDir, containerImage, builder, stamp);
    ExecuteFollowsPlan(plan, 0, history, succeeds, r);
    ExecuteFailureIsLast(plan, 0, history, succeeds, r);
    ExecutePassedBeforeStop(plan, 0, history, succeeds, r);
    OnlyRemovalIgnored(cacheSource, options, scratchDir, containerImage, builder, stamp, |r.trace| - 1);
    forall n | 1 <= n <= |r.trace| && n != 5 && (r.status == Done || n < |r.trace|)
      ensures succeeds(history + r.trace[..n])
    {
      assert Passed(plan, 0, history, r.trace, succeeds, n - 1);
      OnlyRemovalIgnored(cacheSource, options, scratchDir, containerImage, builder, stamp, n - 1);
    }
  }

  /** Whether the leftover container could be removed never changes the run:
      two oracles that may disagree only about that removal give the same
      extraction. */
  lemma RemovalOutcomeIgnored(cacheSource: string, options: CacheOptions, scratchDir: string,
                              containerImage: string, builder: string, stamp: string,
                              history: seq<Command>, succeeds: Oracle, succeeds': Oracle)
    requires forall h: seq<Command> :: |h| > 0 && h[|h| - 1] != ResetContainer ==> succeeds(h) == succeeds'(h)
    ensures Execute(Plan(cacheSource, options, scratchDir, containerImage, builder, stamp), history, succeeds)
         == Execute(Plan(cacheSource, options, scratchDir, containerImage, builder, stamp), history, succeeds')
  {
    var plan := Plan(cacheSource, options, scratchDir, containerImage, builder, stamp);
    forall j | 0 <= j < |plan| {
      ResetOnlyAtRemoval(cacheSource, options, scratchDir, containerImage, builder, stamp, j);
    }
    ExecuteIgnoresOutcome(plan, 0, history, ResetContainer, succeeds, succeeds');
  }

  /** The build stamp and the Dancefile are written directly inside the
      scratch directory: the scratch directory, then a separator (its own
      trailing one or an added one), then the file name; when the scratch
      directory is empty, the path is the bare file name.
      The stamp's name there, `buildstamp`, is what the Dancefile's `COPY`
      reads from the build context. The build then reads that Dancefile with
      the scratch directory as its context, loads the image under the tag the
      container is then created from, and names the builder exactly when one
      is given. The scratch directory must not itself read as an option. */
  lemma BuildReadsDancefile(cacheSource: string, options: CacheOptions, scratchDir: string,
                            containerImage: string, builder: string, stamp: string)
    requires !IsOption(scratchDir)
    ensures var stampFile := PlanStep(1, cacheSource, options, scratchDir, containerImage, builder, stamp).cmd;
            var stampName := "buildstamp";
            && (stampFile.path == scratchDir + stampName || stampFile.path == scratchDir + "/" + stampName)
            && (scratchDir != [] ==> stampFile.path[|stampFile.path| - |stampName| - 1] == '/')
            && (scratchDir == [] ==> stampFile.path == stampName)
    ensures var dancefile := PlanStep(2, cacheSource, options, scratchDir, containerImage, builder, stamp).cmd;
            var fileName := "Dancefile.extract";
            && (dancefile.path == scratchDir + fileName || dancefile.path == scratchDir + "/" + fileName)
            && (scratchDir != [] ==> dancefile.path[|dancefile.path| - |fileName| - 1] == '/')
            && (scratchDir == [] ==> dancefile.path == fileName)
            && Contains(dancefile.content, "COPY buildstamp buildstamp")
    ensures var dancefile := PlanStep(2, cacheSource, options, scratchDir, containerImage, builder, stamp).cmd;
            var build := PlanStep(3, cacheSource, options, scratchDir, containerImage, builder, stamp).cmd;
            var create := PlanStep(5, cacheSource, options, scratchDir, containerImage, builder, stamp).cmd;
            && build.Exec? && build.process.program == "docker"
            && ReadBuild(build.process.args)
               == Some(BuildRequest(if builder == "" then None else Some(builder),
                                    Some(dancefile.path),
                                    Some(create.process.args[|create.process.args| - 1]),
                                    true,
                                    Some(scratchDir)))
  {
    JoinUnder(scratchDir, "buildstamp");
    JoinUnder(scratchDir, "Dancefile.extract");
    DancefileCopiesStamp(containerImage, options.mountArgs, options.targetPath, cacheSource);
    ExtractArgsRead(scratchDir, builder);
  }

  /** The cache source is replaced only at the very end of a run: the rename
      into place is the tenth step, it moves the directory the copy-out left in
      the scratch directory (and which was read successfully), and it comes
      right after a successful forced removal of the same cache source. */
  lemma RelocatesAfterRemoval(cacheSource: string, options: CacheOptions, scratchDir: string,
                              containerImage: string, builder: string, stamp: string,
                              history: seq<Command>, succeeds: Oracle, r: Run, j: nat)
    requires r == Execute(Plan(cacheSource, options, scratchDir, containerImage, builder, stamp), history, succeeds)
    requires j < |r.trace| && r.trace[j].Rename?
    ensures j == 9
    ensures r.trace[9] == Rename(ExtractedDir(scratchDir, cacheSource), cacheSource)
    ensures r.trace[8] == Exec(Process("sudo", ["rm", "-rf", cacheSource])) && succeeds(history + r.trace[..9])
    ensures r.trace[7] == ReadDir(r.trace[9].from) && succeeds(history + r.trace[..8])
    ensures r.trace[6] == CopyOut(scratchDir) && succeeds(history + r.trace[..7])
  {
    ExtractCacheOutcome(cacheSource, options, scratchDir, containerImage, builder, stamp, history, succeeds, r);
    assert r.trace[j] == PlanStep(j, cacheSource, options, scratchDir, containerImage, builder, stamp).cmd;
    assert j == 9;
  }
}
