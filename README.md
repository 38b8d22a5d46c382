# IDAT image augmentation — a Dafny model

IDAT copies an input file or directory tree to an output path. It then
replaces every image in the copy by a tree of augmented images. The tree is
built from a configured *job list*: an ordered list of levels, each level a
list of jobs `{func, times, ...}`. Starting from the (possibly downscaled)
image, the images are expanded round by round:
- Every image of the current round is saved as `<directory>/<name>.jpg`.
- Every level whose index exceeds the level the image came from applies
  each of its jobs `times` times.
- Each child is named `<parent name>_<func>`.
- The loop ends when a round produces no children.

The files are dealt round-robin to `multi_process` workers. Each worker
counts its finished files in a shared dictionary. A monitor process polls
that dictionary, shows the finished count, the elapsed time and an estimate
of the time left, and stops once every file is counted.

The model covers:
- **Job list** (`jobs.dfy`): turning the configuration into transform
  records, and what it means for a job list to be callable.
- **Base name** (`paths.dfy`): the base-name rule and the POSIX
  `os.path.basename`/`os.path.join` it relies on.
- **Expansion** (`expansion.dfy`): the loop in `process_single_image`, with
  images as symbolic terms that name how each picture was obtained.
- **Expansion properties** (`expansion_count.dfy`): lineage, names, and the
  number of saves, which is the product over the levels of one plus the
  level's fan-out.
- **Dispatch** (`dispatch.dfy`): the configuration checks, the round-robin
  deal, the file count, and one worker's loop. Each entry of the shared
  dictionary is a `Counter` object the worker increments.
- **Progress** (`progress.dfy`): `seconds_to_time`, and the monitor as a
  class whose poll method updates its fields.

Properties worth pointing out:
- A worker stops at its first error: a file that does not open as an image,
  or a called job that cannot be called. That is a job whose `func` is not
  recognised, or a crop (`c`) without `w_p` or `h_p`, whose missing ratio
  `MyCrop` multiplies by the image size. With such a job the first file
  already fails, right after its base image is saved.
- If a worker stops early, the counters never add up to the file count, so
  the monitor polls for ever (`StalledWorkerHangsMonitor`).
- The `times` calls of one job on one node get the same name, so their saves
  write the same file (`DrawsShareFile`). The count formula counts save
  calls, not distinct files left on disk.

## Model

| member | source | states |
|---|---|---|
| Paths.BasenameIsLastComponent | IDAT.py:113 | `os.path.basename` returns the separator-free tail of the path, and what precedes it, if anything, ends in a '/' |
| Paths.UpToFirstDotIsPrefix | IDAT.py:113 | `split('.')[0]` is the dot-free prefix of the string, followed by a '.' unless it is the whole string |
| Paths.BaseNameIsStem | IDAT.py:113 | the base name of every output is a prefix of the file's basename with no '/' and no '.', ending at the first '.' |
| Paths.BasenameOfJoin | IDAT.py:281 | joining a directory and a plain file name gives a path whose basename is that file name |
| Jobs.ChooseJob | IDAT.py:59-97 | `func` and `times` are copied; a transform exists exactly for the ten recognised symbols; it is of the kind the symbol names and takes its parameters from the descriptor |
| Jobs.BuildJobList | IDAT.py:49-57 | the job list has the configuration's levels and jobs, in order, each job `choose_job` of its descriptor |
| Jobs.ChosenCallable | IDAT.py:19-25 | the job built from a descriptor can be called (line 182) exactly when its `func` is recognised and, for `c`, both ratios that `MyCrop` multiplies at lines 22-23 are given |
| Jobs.CropWithoutRatiosNotRunnable | IDAT.py:19-25 | a crop called at least once without `w_p` or `h_p` makes the job list not runnable, although `c` is recognised |
| Jobs.RunnableIffRecognised | IDAT.py:59-97 | every job the expansion calls (line 182) can be called exactly when every descriptor with positive `times` names a recognised `func` and, for `c`, gives both ratios |
| Expansion.NeedsResize | IDAT.py:117-121 | the image is scaled down exactly when its width or its height exceeds `resize_limit` |
| Expansion.JobChildren | IDAT.py:175-185 | one job gives a node exactly `times` children (none for non-positive `times`) |
| Expansion.DrawsAt | IDAT.py:180-185 | the `d`-th child of a job is the `d`-th call of its transform, named `<parent>_<func>` and tagged with the level |
| Expansion.LevelChildren | IDAT.py:175-185 | the children one level gives a node number the level's fan-out, the sum of its jobs' repetition counts |
| Expansion.SpawnLevels | IDAT.py:168-173 | every child of a node comes from a level strictly above the node's own level |
| Expansion.FrontierLevels | IDAT.py:156-188 | every node of round r comes from a level between r and the number of levels |
| Expansion.FrontierEmptyAfterLastLevel | IDAT.py:156-188 | the round after round `len(job_list)` is empty, so the loop ends within `len(job_list) + 1` rounds |
| Expansion.CallJob | IDAT.py:175-185 | calling a job fails exactly when it has positive `times` and no transform, or is a crop missing a ratio; otherwise it returns the job's children |
| Expansion.ExpandLevel | IDAT.py:175-185 | one level fails exactly when it is not runnable; otherwise it returns the level's children in job order |
| Expansion.ExpandNode | IDAT.py:166-185 | expanding a node fails exactly when a level above it is not runnable; otherwise it returns all its children |
| Expansion.RunRound | IDAT.py:157-185 | one pass over `result_list` saves every node and collects every child; on failure only the nodes up to the failing one are saved |
| Expansion.ExpandRounds | IDAT.py:154-188 | the rounds finish exactly when the job list is runnable and then save every round's frontier; otherwise only the base node is saved |
| Expansion.ProcessSingleImage | IDAT.py:107-188 | the resize guard and base name give the root; it finishes exactly when the job list is runnable, saving the whole tree, or else only the root |
| ExpansionCount.SpawnIsChildren | IDAT.py:168-185 | a node's children are exactly the draws of the jobs of the levels above it, each named `<parent>_<func>` |
| ExpansionCount.SpawnUpToSize | IDAT.py:168-185 | a node gets the sum of the fan-outs of the levels above it as children |
| ExpansionCount.ChildDescends | IDAT.py:168-185 | a child of a descendant descends from the base with one more transform and a strictly larger level |
| ExpansionCount.FrontierDescends | IDAT.py:156-188 | every node of round r has had r transforms of strictly increasing levels applied to the base image, and is named the base name plus one `_<func>` per transform |
| ExpansionCount.SavesAreDescendants | IDAT.py:156-188 | every save writes a descendant of the base image to `<save_path>/<base name><suffix>.jpg` |
| ExpansionCount.DrawsShareFile | IDAT.py:162-185 | two calls of one job on one node are saved under the same file; they are different draws, which differ as pictures only for the random transforms |
| ExpansionCount.SavesPlusWeight | IDAT.py:156-188 | after any number of rounds, the saves so far plus the subtrees still to expand equal the total |
| ExpansionCount.CountFormula | IDAT.py:154-188 | the expansion saves the product over the levels of (1 + fan-out) images |
| ExpansionCount.OneFlipSavesTwo | IDAT.py:154-188 | one level with one job called once saves two images |
| ExpansionCount.TwoLevelsSaveTwelve | IDAT.py:154-188 | two single-job levels called twice and three times save 12 images |
| ExpansionCount.OneJobSaves | IDAT.py:154-188 | with one job called once, the saves are the root and then its one child |
| ExpansionCount.FlipScenario | IDAT.py:112-188 | a 2000×1000 `a.jpg` with limit 1024 and one flip is saved, resized, as `a.jpg` and flipped as `a_h.jpg`, and nothing else |
| Dispatch.StepEntriesNames | IDAT.py:278-282 | each walked file is queued with its joined path, whose basename is the file name, and its directory as the save path |
| Dispatch.CheckConfig | IDAT.py:248-258 | -1 workers means the CPU count (line 47); the work starts exactly when the output path is absent, the input is a file or directory and the worker count is positive, and otherwise raises the first failing check's error |
| Dispatch.DealIsDealt | IDAT.py:273-283 | bucket b holds exactly the files whose walk index is b modulo the worker count, in walk order |
| Dispatch.DealtHasIndex | IDAT.py:273-283 | the file with walk index i is in bucket i mod N |
| Dispatch.DealPartitions | IDAT.py:273-283 | the buckets together hold every walked file exactly once |
| Dispatch.Partition | IDAT.py:273-283 | the loop over the walk builds the round-robin deal of all walked files |
| Dispatch.DealFiles | IDAT.py:279-283 | the inner loop deals one directory's files on from the current bucket, and the cycling index equals the number of files dealt modulo N |
| Dispatch.NextCounter | IDAT.py:283 | `0 if n == N - 1 else n + 1` is the successor modulo N |
| Dispatch.CountFiles | IDAT.py:286-288 | `file_number` is the total length of the buckets |
| Dispatch.FileNumberCountsFiles | IDAT.py:273-288 | `file_number` equals the number of walked files |
| Dispatch.ProcessFile | IDAT.py:104-112 | one file is done exactly when it opens as an image and the job list is runnable; its saves are those of its expansion |
| Dispatch.ProcessImage | IDAT.py:99-105 | the worker processes its files in order and stops at the first failure; its counter grows by the number of files finished |
| Dispatch.WorkerFinishesBucket | IDAT.py:99-105 | a worker finishes its bucket exactly when every file opens and, unless the bucket is empty, the job list is runnable |
| Dispatch.WorkerStopsAtFirstFile | IDAT.py:99-105 | with a called job that cannot be called, a worker finishes nothing and saves only its first file's base image |
| Dispatch.NewProcessDict | IDAT.py:290-293 | one fresh, distinct counter per worker, each at zero |
| Progress.SecondsToTime | IDAT.py:190-193 | minutes and seconds lie in 0..59, and hours·3600 + minutes·60 + seconds is the whole number of seconds |
| Progress.ClockRoundTrip | IDAT.py:190-193 | converting the seconds of a well-formed reading gives that reading back |
| Progress.PollStep | IDAT.py:206-224 | one poll never lowers the finished count, takes the larger of the old count and the sum read, records the elapsed time, and leaves a non-negative estimate |
| Progress.PollEta | IDAT.py:213-224 | an unchanged count lowers the estimate by the time since the last poll; a grown count sets it to cost / finished · (files − finished), dividing by a positive count |
| Progress.PollDone | IDAT.py:218-224 | the poll that sees every file finished estimates zero time left |
| Progress.Polls | IDAT.py:206-224 | over any number of polls the finished count does not decrease below its start |
| Progress.PollsMonotone | IDAT.py:206-224 | the finished count never decreases from one poll to a later one |
| Progress.PollsSeeLargestSum | IDAT.py:209-219 | after a poll, the finished count is at least every sum read so far |
| Progress.PollsAttainLargest | IDAT.py:209-219 | the finished count is the starting count or one of the sums read, so with the bounds above it is the largest of them |
| Progress.StalledPollsNeverFinish | IDAT.py:206 | while every sum read is below the file count, the monitor never reaches it |
| Progress.FinishedCountersAddUp | IDAT.py:209-211 | when each counter equals its bucket's size, the counters add up to `file_number` |
| Progress.CountersBelowFiles | IDAT.py:209-211 | counters within their buckets add up to at most `file_number`, and to less while one is below its bucket |
| Progress.SumIncrement | IDAT.py:209-211 | one increment of a worker's counter (line 105) raises the sum the monitor reads by one |
| Progress.AllDoneStopsMonitor | IDAT.py:206-219 | once every worker has counted its whole bucket, the next poll reaches `file_number` and the loop exits |
| Progress.StalledWorkerHangsMonitor | IDAT.py:206 | a worker that stopped before the end of its bucket keeps the monitor below `file_number` for ever |
| Progress.ProgressMonitor.constructor | IDAT.py:196-199 | the monitor starts with nothing finished, no time spent and no estimate |
| Progress.ProgressMonitor.Poll | IDAT.py:207-224 | adding up the counters and updating the fields gives exactly the poll step's new state |
| Progress.ProgressMonitor.Run | IDAT.py:206-236 | the loop polls while fewer files are finished than there are; it stops at the first poll that reaches the file count, and the state is that of the polls made |

## Left out

- Foreign calls are assumed never to raise: the torchvision constructors
  and transforms (including a crop larger than the image), the resize and
  `image.save`. Constructing a rotation or a colour jitter without `min` or
  `max` is therefore accepted. The only failing calls modelled are a job
  without a transform and a crop without `w_p` or `h_p` (IDAT.py:22-23).
- Calls are identified by job, level, input and draw, not by the job's
  position in its level. Two identical descriptors in one level therefore
  give equal terms for the same draw, where the source makes two
  independent random calls.
- Pixel work is left out: decoding, RGB conversion, the resized dimensions,
  the crop-size arithmetic of `MyCrop`, and the random transforms. An image
  is a term: loaded, resized to a limit, or transformed by a job on a given
  draw.
- Reading the JSON configuration is left out. Descriptors are given as
  values, with each optional parameter as an `Option`. A descriptor without
  `times` (which fails in `range(None)`) is not modelled.
- `cpu_count()` is a parameter of `CheckConfig`.
- The filesystem is left out: the copy of the input, `os.mkdir`, and the
  `os.remove` of each original image. `os.walk` is given as its sequence of
  visited directories. Opening a file as an image is a parameter that gives
  the image size, or nothing for a file that is not an image.
- Only the two-argument POSIX `os.path.join` and `os.path.basename` are
  modelled.
- The model records every save call. It does not track which files are left
  on disk after saves under the same name overwrite each other.
- Concurrency is left out. The pool, the monitor process and the manager
  dictionary are not interleaved: each worker is one call of `ProcessImage`
  on its own `Counter`. The counter values and the elapsed time the monitor
  reads at each poll are inputs (`Sample`).
- `apply_async` discards a worker's exception. The model stops the worker
  at the failing file, which is the same effect, and does not model the
  exception object.
- `time()`, `sleep(1)` and the printed progress line are left out. This
  includes its percentage and zero-padded clock fields, beyond the
  `seconds_to_time` values.
- Floating point is modelled as exact reals, and `int()` of the non-negative
  `divmod` results as `Floor`.
- Progress.ProgressMonitor.Run: is bounded by the number of samples given,
  because the source's loop can poll for ever; the lemma
  `StalledWorkerHangsMonitor` states when it does.
