/** The build file ("Dancefile") that copies a mount cache out into the image. */
module Dancefile {

  /** Where the build step copies the cache: the image directory that is later
      copied out of the container. */
  const CacheRoot: string := "/var/dance-cache"

  /** The copy destination of one cache source inside the image. */
  function CacheDir(cacheSource: string): string {
    CacheRoot + "/" + cacheSource
  }

  /** The `RUN` instruction: the cache mount, then the shell command. Each
      backslash-newline inside the template is a line continuation and
      contributes nothing, so the instruction is one line. */
  function RunInstruction(mountArgs: string, targetPath: string, cacheSource: string): string {
    "RUN " + ("--mount=" + mountArgs) + " " + CopyScript(targetPath, CacheDir(cacheSource))
  }

  /** The shell command of the `RUN` instruction: list the target path and
      create the destination; copy everything under the target path into it,
      keeping modes and times; list the destination. Each continued line keeps
      its four leading spaces. */
  function CopyScript(targetPath: string, dest: string): string {
    ("    echo \"Contents of " + targetPath + ":\" && "
     + "    ls -la " + targetPath + " && "
     + "    ")
    + MakeAndCopy(targetPath, dest)
    + (" && "
       + "    echo \"Contents of " + dest + ":\" && "
       + "    ls -la " + dest)
  }

  /** The middle of the shell command: create the destination (with its
      parents), and only if that succeeds copy into it. */
  function MakeAndCopy(targetPath: string, dest: string): string {
    "mkdir -p " + dest + " " + "    && " + ("cp -p -R " + targetPath + "/. " + dest)
  }

  /** The Dancefile text: an empty first line, then the base image, the copy
      of the build stamp into the image (which defeats the layer cache) and
      the `RUN` instruction, each ended by a line break. */
  function Render(containerImage: string, mountArgs: string, targetPath: string, cacheSource: string): string {
    "\n"
    + ("FROM " + containerImage + "\n"
    + ("COPY buildstamp buildstamp" + "\n"
    + (RunInstruction(mountArgs, targetPath, cacheSource) + "\n")))
  }

  /** `s` holds `part` at some position. */
  predicate Contains(s: string, part: string) {
    exists i :: 0 <= i <= |s| - |part| && part <= s[i..]
  }

  lemma ContainsItself(part: string)
    ensures Contains(part, part)
  {
    assert part <= part[0..];
  }

  lemma ContainsBefore(x: string, y: string, part: string)
    requires Contains(x, part)
    ensures Contains(x + y, part)
  {
    var i :| 0 <= i <= |x| - |part| && part <= x[i..];
    assert (x + y)[i..] == x[i..] + y;
  }

  lemma ContainsAfter(x: string, y: string, part: string)
    requires Contains(y, part)
    ensures Contains(x + y, part)
  {
    var i :| 0 <= i <= |y| - |part| && part <= y[i..];
    assert (x + y)[|x| + i..] == y[i..];
  }

  /** Whatever the `RUN` instruction holds, the Dancefile holds. */
  lemma DancefileHolds(containerImage: string, mountArgs: string, targetPath: string, cacheSource: string, part: string)
    requires Contains(RunInstruction(mountArgs, targetPath, cacheSource), part)
    ensures Contains(Render(containerImage, mountArgs, targetPath, cacheSource), part)
  {
    var run := RunInstruction(mountArgs, targetPath, cacheSource);
    ContainsBefore(run, "\n", part);
    ContainsAfter("COPY buildstamp buildstamp" + "\n", run + "\n", part);
    ContainsAfter("FROM " + containerImage + "\n", "COPY buildstamp buildstamp" + "\n" + (run + "\n"), part);
    ContainsAfter("\n", "FROM " + containerImage + "\n" + ("COPY buildstamp buildstamp" + "\n" + (run + "\n")), part);
  }

  /** The Dancefile mounts the cache as the mount arguments say. */
  lemma DancefileMounts(containerImage: string, mountArgs: string, targetPath: string, cacheSource: string)
    ensures Contains(Render(containerImage, mountArgs, targetPath, cacheSource), "--mount=" + mountArgs)
  {
    var mount := "--mount=" + mountArgs;
    ContainsItself(mount);
    ContainsAfter("RUN ", mount, mount);
    ContainsBefore("RUN " + mount, " ", mount);
    ContainsBefore("RUN " + mount + " ", CopyScript(targetPath, CacheDir(cacheSource)), mount);
    DancefileHolds(containerImage, mountArgs, targetPath, cacheSource, mount);
  }

  /** The Dancefile creates this source's directory under the cache root and
      then copies everything under the target path into it: the `mkdir -p`
      and the `cp`, joined by `&&`, stand in this order in one command. */
  lemma DancefileCopies(containerImage: string, mountArgs: string, targetPath: string, cacheSource: string)
    ensures Contains(Render(containerImage, mountArgs, targetPath, cacheSource),
                     "cp -p -R " + targetPath + "/. " + CacheDir(cacheSource))
    ensures Contains(Render(containerImage, mountArgs, targetPath, cacheSource),
                     "mkdir -p " + CacheDir(cacheSource) + " " + "    && "
                     + ("cp -p -R " + targetPath + "/. " + CacheDir(cacheSource)))
  {
    var dest := CacheDir(cacheSource);
    var copy := "cp -p -R " + targetPath + "/. " + dest;
    var both := MakeAndCopy(targetPath, dest);
    var before := "    echo \"Contents of " + targetPath + ":\" && " + "    ls -la " + targetPath + " && " + "    ";
    var after := " && " + "    echo \"Contents of " + dest + ":\" && " + "    ls -la " + dest;
    var prefix := "RUN " + ("--mount=" + mountArgs) + " ";
    ContainsItself(copy);
    ContainsAfter("mkdir -p " + dest + " " + "    && ", copy, copy);
    ContainsItself(both);
    forall part | part == copy || part == both
      ensures Contains(Render(containerImage, mountArgs, targetPath, cacheSource), part)
    {
      ContainsAfter(before, both, part);
      ContainsBefore(before + both, after, part);
      ContainsAfter(prefix, CopyScript(targetPath, dest), part);
      DancefileHolds(containerImage, mountArgs, targetPath, cacheSource, part);
    }
  }

  /** The Dancefile copies the build stamp, by its name in the build context,
      into the image. */
  lemma DancefileCopiesStamp(containerImage: string, mountArgs: string, targetPath: string, cacheSource: string)
    ensures Contains(Render(containerImage, mountArgs, targetPath, cacheSource), "COPY buildstamp buildstamp")
  {
    var line := "COPY buildstamp buildstamp";
    var run := RunInstruction(mountArgs, targetPath, cacheSource);
    var from := "FROM " + containerImage + "\n";
    ContainsItself(line);
    ContainsBefore(line, "\n", line);
    ContainsBefore(line + "\n", run + "\n", line);
    ContainsAfter(from, line + "\n" + (run + "\n"), line);
    ContainsAfter("\n", from + (line + "\n" + (run + "\n")), line);
  }

  /** The lines of `s`: the pieces between `'\n'` characters, as a reader of
      the build file splits it. */
  function Lines(s: string): (r: seq<string>)
    ensures |r| >= 1
    decreases |s|
  {
    if s == [] then [""]
    else
      var rest := Lines(s[1..]);
      if s[0] == '\n' then [""] + rest else [[s[0]] + rest[0]] + rest[1..]
  }

  /** A line without a break, followed by a line break, is the first line. */
  lemma {:induction false} LinesOfBreak(s: string, a: string, b: string)
    requires s == a + "\n" + b && '\n' !in a
    ensures Lines(s) == [a] + Lines(b)
    decreases |a|
  {
    if a == [] {
      assert s[1..] == b;
    } else {
      assert s[0] == a[0] && '\n' !in a[1..];
      LinesOfBreak(s[1..], a[1..], b);
      assert [a[0]] + a[1..] == a;
    }
  }

  /** The shell script continues its lines, so it is one line. */
  lemma CopyScriptIsOneLine(targetPath: string, dest: string)
    requires '\n' !in targetPath && '\n' !in dest
    ensures '\n' !in CopyScript(targetPath, dest)
  {
  }

  /** The `RUN` instruction, continued lines and all, is one line. */
  lemma RunInstructionIsOneLine(mountArgs: string, targetPath: string, cacheSource: string)
    requires '\n' !in mountArgs && '\n' !in targetPath && '\n' !in cacheSource
    ensures '\n' !in RunInstruction(mountArgs, targetPath, cacheSource)
  {
    CopyScriptIsOneLine(targetPath, CacheDir(cacheSource));
  }

  /** When the image reference, the mount arguments, the target path and the
      cache source hold no line break, the Dancefile has exactly these lines:
      an empty one, `FROM` the utility image, the `COPY` of the stamp, a single
      `RUN` line, and the empty rest after the final line break. */
  lemma DancefileLines(containerImage: string, mountArgs: string, targetPath: string, cacheSource: string)
    requires '\n' !in containerImage && '\n' !in mountArgs && '\n' !in targetPath && '\n' !in cacheSource
    ensures Lines(Render(containerImage, mountArgs, targetPath, cacheSource))
         == ["", "FROM " + containerImage, "COPY buildstamp buildstamp",
             RunInstruction(mountArgs, targetPath, cacheSource), ""]
  {
    var run := RunInstruction(mountArgs, targetPath, cacheSource);
    RunInstructionIsOneLine(mountArgs, targetPath, cacheSource);
    var last := run + "\n";
    var copy := "COPY buildstamp buildstamp" + "\n" + last;
    var from := "FROM " + containerImage + "\n" + copy;
    LinesOfBreak(Render(containerImage, mountArgs, targetPath, cacheSource), "", from);
    LinesOfBreak(from, "FROM " + containerImage, copy);
    LinesOfBreak(copy, "COPY buildstamp buildstamp", last);
    LinesOfBreak(last, run, "");
  }
}
