# Cache extraction of buildkit-cache-dance, modelled in Dafny

buildkit-cache-dance carries BuildKit mount caches (`RUN --mount=type=cache`)
across CI runs. This project models its extraction side. That is the part that
copies the contents of each mount cache out of BuildKit and onto the host
filesystem. For each cache source, the extraction:

1. creates the scratch directory, with its parents, if it is missing;
2. writes a fresh timestamp file into the scratch directory;
3. writes a build file, the Dancefile, that mounts the cache and copies its
   contents into the image under `/var/dance-cache/<source>`;
4. builds that file into the image `dance:extract`;
5. removes any leftover `cache-container` and ignores the removal's failure;
6. creates a new `cache-container` from the image;
7. streams `/var/dance-cache` out of the container through `tar` into the
   scratch directory;
8. lists the extracted directory;
9. force-removes the old cache source with `sudo rm -rf`;
10. renames the extracted directory into the cache source's place.

The batch runs this for every entry of the cache map, one entry at a time.
When extraction is skipped, the batch does nothing.

Every awaited call becomes a `Command` value in a trace. Whether a call
succeeds is decided by an oracle, a function from the history issued so far
(ending with that call) to a boolean. A call that fails throws and ends the
run, unless it sits in the empty try/catch around the container removal.

- `Effects.ExecuteFrom` is the reference semantics of such a run.
- The methods `Extraction.ExtractCache` and `BatchExtraction.ExtractCaches`
  issue the commands one by one. They are proved equal to that reference
  semantics.
- Lemmas then state what the reference run does.

Relocation in the code is two steps: a removal, then a rename. It is not an
atomic replacement. The model follows the code, so when the rename fails the
old cache source is already gone (`Extraction.RelocatesAfterRemoval`).

Modules:

- `Paths` (`paths.dfy`): `path.join`.
- `Effects` (`effects.dfy`): commands, runs, the reference semantics and the
  `Await` step.
- `Dancefile` (`dancefile.dfy`): the Dancefile text.
- `BuildArgs` (`build_args.dfy`): the `docker buildx build` arguments and a
  reader for them.
- `Extraction` (`extract_cache.dfy`): the pipeline for one cache source.
- `BatchExtraction` (`extract_caches.dfy`): the batch.

## Model

| member | source | states |
|---|---|---|
| Paths.JoinUnder | src/extract-cache.ts:11 | a file joined onto a directory is the directory, at most one added separator, then the file name; unless the directory is empty, a separator stands right before the name; an empty directory contributes nothing; no separator is added after a trailing one |
| Effects.ExecuteFrom | src/extract-cache.ts:6-74 | a run issues at most the remaining steps, and it finishes only after issuing all of them |
| Effects.ExecuteFollowsPlan | src/extract-cache.ts:6-74 | what is issued is the plan's commands, in plan order |
| Effects.ExecuteFailureIsLast | src/extract-cache.ts:6-74 | a failure is the last command issued; it failed and its step does not ignore failures, so nothing after it runs |
| Effects.ExecutePassedBeforeStop | src/extract-cache.ts:6-74 | every command issued before the run stopped either succeeded or sits in a try/catch that ignores failure |
| Effects.Await | src/extract-cache.ts:10 | awaiting one step appends its command; the run continues exactly when the command succeeded or its failure is ignored, and otherwise ends failed at that command |
| Effects.ExecuteShift | src/extract-cache.ts:88-90 | steps placed after others run as they do on their own |
| Effects.ExecuteConcatFrom | src/extract-cache.ts:88-90 | running two plans back to back runs the first and, unless it failed, then the second |
| Effects.ExecuteIgnoresOutcome | src/extract-cache.ts:54-58 | if every step issuing a command ignores its failure, that command's outcome never changes the run |
| Dancefile.DancefileMounts | src/extract-cache.ts:17-20 | the Dancefile holds `--mount=` followed by the mount arguments |
| Dancefile.DancefileCopies | src/extract-cache.ts:23-24 | the Dancefile creates `/var/dance-cache/<source>` with `mkdir -p` and then, joined by `&&`, copies everything under the target path into it |
| Dancefile.DancefileCopiesStamp | src/extract-cache.ts:19 | the Dancefile copies `buildstamp` from the build context into the image |
| Dancefile.CopyScriptIsOneLine | src/extract-cache.ts:21-26 | the continued lines of the copy script hold no line break |
| Dancefile.RunInstructionIsOneLine | src/extract-cache.ts:20-26 | the whole `RUN` instruction is one line when its inputs hold no line break |
| Dancefile.DancefileLines | src/extract-cache.ts:17-27 | the Dancefile's lines are exactly: an empty line, `FROM <image>`, `COPY buildstamp buildstamp`, the `RUN` line, and the empty rest after the final line break |
| BuildArgs.ExtractArgsShape | src/extract-cache.ts:40-47 | the arguments start with `buildx build`; `--builder <name>` comes next exactly when the builder is a non-empty string; there are 8 or 10 arguments; the scratch directory is last |
| BuildArgs.ExtractArgsRead | src/extract-cache.ts:40-47 | read back, the arguments select the builder exactly when one is given, the Dancefile in the scratch directory, the tag `dance:extract`, `--load`, and the scratch directory as context |
| Extraction.OnlyRemovalIgnored | src/extract-cache.ts:54-58 | of the ten steps, only the removal of the leftover container ignores its failure |
| Extraction.ResetOnlyAtRemoval | src/extract-cache.ts:55 | no other step issues the removal command |
| Extraction.ExtractCache | src/extract-cache.ts:6-74 | the issued trace and the status are the reference run of the ten-step plan |
| Extraction.ExtractCacheOutcome | src/extract-cache.ts:6-74 | the trace is a prefix of the plan, at most ten commands; a finished run issued all ten; a failure is the last command issued, never the removal, and did not succeed; every earlier command other than the removal succeeded |
| Extraction.RemovalOutcomeIgnored | src/extract-cache.ts:54-58 | two oracles that disagree only about the container removal give the same run |
| Extraction.BuildReadsDancefile | src/extract-cache.ts:11-59 | the stamp and the Dancefile are written directly inside the scratch directory (the directory, a separator, the file name; the bare file name when the directory is empty); the stamp's name is the one the Dancefile's `COPY` reads; the build reads that Dancefile with the scratch directory as context, loads the image under the tag the container is then created from, and names the builder exactly when one is given |
| Extraction.RelocatesAfterRemoval | src/extract-cache.ts:62-73 | a rename is only ever the tenth command; it moves the directory that the copy-out created and the listing read; it follows a successful `sudo rm -rf` of the same cache source |
| BatchExtraction.ExtractCaches | src/extract-cache.ts:76-91 | the batch's trace and status are the reference batch run: nothing when skipped, otherwise the entries in order, stopping at the first failure |
| BatchExtraction.RunFromIsOnePlan | src/extract-cache.ts:88-90 | extracting entry after entry, stopping at the first failure, is the same as running their plans back to back as one plan |
| BatchExtraction.BatchOutcome | src/extract-cache.ts:76-91 | a skipped batch issues nothing; otherwise step `j` of entry `k` is command `10k+j`; a finished batch ran all steps of all entries; a failure is the last command, is never a removal, and did not succeed; every earlier command except removals succeeded |

## Left out

- Logging (`console.log`) is not modelled. It has no effect on what the pipeline does.
- The options resolver is not part of this model. `getCacheMap`,
  `getTargetPath`, `getMountArgsString` and `getBuilder` live in `src/opts.ts`.
  `CacheOptions` holds the resolved target path and mount arguments.
  `Opts` holds the resolved cache-map entries and the builder (`""` when none).
- The cache map is given as its list of entries, in the order
  `Object.entries` yields them. JavaScript's enumeration order rule (integer-like keys first) is not modelled.
- The clock (`new Date().toISOString()`) is a parameter: `stamp` for one
  extraction, `Clock` (one reading per extraction) for the batch.
- The filesystem, Docker, `sudo` and `tar` are not modelled. The oracle
  decides each call's outcome, so the model does not say which files exist
  after a call.
- `runPiped` is one command with one outcome. How it combines the two processes' exit statuses is not modelled; `src/run.ts` is not part of this model.
- The archive layout is not modelled. `docker cp` of `/var/dance-cache`
  yields a top directory `dance-cache`, which the model only names in `ExtractedDir`.
- The list returned by `fs.readdir` is only logged. The model keeps the call and its outcome.
- A thrown error is modelled as `Failed` of the command that threw. Error messages and objects are not kept.
- `path.join` normalisation (`.`, `..`, repeated separators) is not modelled.
  `Paths.Join` handles only an empty directory and a trailing separator.
  An empty segment is not dropped either: `Join(d, "")` is `d + "/"`, whereas
  `path.join` returns `d`, so `ExtractedDir` differs from the code for an empty
  cache source.
- Extraction.BuildReadsDancefile: holds only when the scratch directory does
  not start with `-`. Otherwise the build would read it as an option.
- BuildArgs.ExtractArgsRead: holds only when the scratch directory does not start with `-`, for the same reason.
- Dancefile.DancefileLines: holds only when the image reference, the mount
  arguments, the target path and the cache source hold no line break.
