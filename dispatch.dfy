/** Spreading the work over the worker processes: the configuration
    checks, the round-robin deal of the walked files into one bucket per
    worker, the file count, and one worker's loop over its bucket. */
module Dispatch {
  import opened Wrappers
  import opened Paths
  import opened Jobs
  import opened Expansion

  /** One directory the walk of the output tree visits: its path and the
      names of the files directly in it, in the walk's order. */
  datatype WalkStep = WalkStep(root: string, files: seq<string>)

  /** One file to process: its full path and the directory its outputs are
      saved to. */
  datatype Entry = Entry(path: string, root: string)

  /** The entries of one directory of the walk. */
  function StepEntries(w: WalkStep): (r: seq<Entry>)
    ensures |r| == |w.files|
  {
    EntriesUpTo(w, |w.files|)
  }

  /** The entries of the first `j` files of one directory. */
  function EntriesUpTo(w: WalkStep, j: nat): (r: seq<Entry>)
    requires j <= |w.files|
    ensures |r| == j
  {
    if j == 0 then [] else EntriesUpTo(w, j - 1) + [Entry(Join(w.root, w.files[j - 1]), w.root)]
  }

  lemma {:induction false} EntriesAt(w: WalkStep, i: nat, j: nat)
    requires j < i <= |w.files|
    ensures EntriesUpTo(w, i)[j] == Entry(Join(w.root, w.files[j]), w.root)
  {
    if j < i - 1 {
      EntriesAt(w, i - 1, j);
    }
  }

  /** Each entry of a directory is saved beside its file and names that
      file: the basename of its path is the file name, which holds no
      separator. */
  lemma StepEntriesNames(w: WalkStep, j: nat)
    requires j < |w.files| && '/' !in w.files[j]
    ensures StepEntries(w)[j].root == w.root
    ensures Basename(StepEntries(w)[j].path) == w.files[j]
  {
    EntriesAt(w, |w.files|, j);
    BasenameOfJoin(w.root, w.files[j]);
  }

  /** All files of the walk, directory by directory, in walk order. */
  function Enumerate(walk: seq<WalkStep>): seq<Entry>
  {
    EnumerateUpTo(walk, |walk|)
  }

  /** The files of the first `w` directories of the walk. */
  function EnumerateUpTo(walk: seq<WalkStep>, w: nat): seq<Entry>
    requires w <= |walk|
  {
    if w == 0 then [] else EnumerateUpTo(walk, w - 1) + StepEntries(walk[w - 1])
  }

  // ---------------------------------------------------------------------
  // The configuration checks.

  /** Why the work does not start. */
  datatype ConfigError = OutputExists | BadInputPath | BadProcessNumber

  /** A worker count of -1 asks for one worker per CPU. */
  function ResolveWorkers(multiProcess: int, cpuCount: nat): int
  {
    if multiProcess == -1 then cpuCount else multiProcess
  }

  /** The checks made before any file is copied, in the source's order:
      the output path must not exist, the input path must be a file or a
      directory, and the worker count must be positive. On success the
      worker count is returned. */
  function CheckConfig(outputExists: bool, isFile: bool, isDir: bool, multiProcess: int, cpuCount: nat): (r: Result<nat, ConfigError>)
    ensures r.Ok? <==> !outputExists && (isFile || isDir) && ResolveWorkers(multiProcess, cpuCount) > 0
    ensures r.Ok? ==> r.value as int == ResolveWorkers(multiProcess, cpuCount) && r.value > 0
    ensures outputExists ==> r == Err(OutputExists)
    ensures !outputExists && !(isFile || isDir) ==> r == Err(BadInputPath)
    ensures !outputExists && (isFile || isDir) && ResolveWorkers(multiProcess, cpuCount) <= 0 ==> r == Err(BadProcessNumber)
  {
    var workers := ResolveWorkers(multiProcess, cpuCount);
    if outputExists then Err(OutputExists)
    else if !(isFile || isDir) then Err(BadInputPath)
    else if !(workers > 0) then Err(BadProcessNumber)
    else Ok(workers)
  }

  // ---------------------------------------------------------------------
  // The round-robin deal.

  /** The buckets after dealing `files` in order, file number i to bucket
      `i % n`. */
  function Deal(files: seq<Entry>, n: nat): (r: seq<seq<Entry>>)
    requires n > 0
    ensures |r| == n
  {
    if files == [] then seq(n, _ => [])
    else
      var k := |files| - 1;
      var prev := Deal(files[..k], n);
      prev[k % n := prev[k % n] + [files[k]]]
  }

  /** The files whose walk index is `b` modulo `n`, in walk order. */
  function Dealt(files: seq<Entry>, n: nat, b: nat): seq<Entry>
    requires n > 0
  {
    if files == [] then []
    else if (|files| - 1) % n == b then Dealt(files[..|files| - 1], n, b) + [files[|files| - 1]]
    else Dealt(files[..|files| - 1], n, b)
  }

  /** Dealing one more file appends it to the bucket its index selects. */
  lemma DealAppend(files: seq<Entry>, e: Entry, n: nat)
    requires n > 0
    ensures Deal(files + [e], n) == Deal(files, n)[|files| % n := Deal(files, n)[|files| % n] + [e]]
  {
    assert (files + [e])[..|files|] == files;
  }

  /** Bucket `b` holds exactly the files whose index is `b` modulo the
      number of buckets, in walk order. */
  lemma {:induction false} DealIsDealt(files: seq<Entry>, n: nat, b: nat)
    requires n > 0 && b < n
    ensures Deal(files, n)[b] == Dealt(files, n, b)
    decreases |files|
  {
    if files != [] {
      DealIsDealt(files[..|files| - 1], n, b);
    }
  }

  /** The file with walk index `i` is in bucket `i % n`. */
  lemma {:induction false} DealtHasIndex(files: seq<Entry>, n: nat, i: nat)
    requires n > 0 && i < |files|
    ensures files[i] in Dealt(files, n, i % n)
    decreases |files|
  {
    var k := |files| - 1;
    if i < k {
      DealtHasIndex(files[..k], n, i);
    }
  }

  /** The buckets one after the other. */
  function Flatten<T>(bs: seq<seq<T>>): seq<T>
  {
    FlattenUpTo(bs, |bs|)
  }

  /** The first `i` buckets one after the other. */
  function FlattenUpTo<T>(bs: seq<seq<T>>, i: nat): seq<T>
    requires i <= |bs|
  {
    if i == 0 then [] else FlattenUpTo(bs, i - 1) + bs[i - 1]
  }

  /** Buckets before the one that grew flatten as before. */
  lemma {:induction false} FlattenBeforePlace<T>(bs: seq<seq<T>>, b: nat, e: T, i: nat)
    requires b < |bs| && i <= b
    ensures FlattenUpTo(bs[b := bs[b] + [e]], i) == FlattenUpTo(bs, i)
  {
    if i > 0 {
      FlattenBeforePlace(bs, b, e, i - 1);
    }
  }

  lemma FlattenAtPlace<T>(bs: seq<seq<T>>, b: nat, e: T)
    requires b < |bs|
    ensures multiset(FlattenUpTo(bs[b := bs[b] + [e]], b + 1)) == multiset(FlattenUpTo(bs, b + 1)) + multiset{e}
  {
    var placed := bs[b := bs[b] + [e]];
    FlattenBeforePlace(bs, b, e, b);
    assert placed[b] == bs[b] + [e];
    assert multiset(FlattenUpTo(placed, b + 1)) == multiset(FlattenUpTo(bs, b)) + multiset(bs[b] + [e]);
  }

  /** Once past the bucket that grew, the flattened buckets hold one more
      copy of the new entry. */
  lemma {:induction false} FlattenAfterPlace<T>(bs: seq<seq<T>>, b: nat, e: T, i: nat)
    requires b < i <= |bs|
    ensures multiset(FlattenUpTo(bs[b := bs[b] + [e]], i)) == multiset(FlattenUpTo(bs, i)) + multiset{e}
  {
    var placed := bs[b := bs[b] + [e]];
    if i - 1 == b {
      FlattenAtPlace(bs, b, e);
    } else {
      FlattenAfterPlace(bs, b, e, i - 1);
      assert FlattenUpTo(placed, i) == FlattenUpTo(placed, i - 1) + bs[i - 1];
      AppendKeepsExtra(FlattenUpTo(placed, i - 1), FlattenUpTo(bs, i - 1), bs[i - 1], e);
    }
  }

  lemma AppendKeepsExtra<T>(a: seq<T>, b: seq<T>, c: seq<T>, e: T)
    requires multiset(a) == multiset(b) + multiset{e}
    ensures multiset(a + c) == multiset(b + c) + multiset{e}
  {
  }

  /** Empty buckets flatten to nothing. */
  lemma FlattenEmpty<T>(bs: seq<seq<T>>, i: nat)
    requires i <= |bs|
    requires forall b :: 0 <= b < |bs| ==> bs[b] == []
    ensures FlattenUpTo(bs, i) == []
  {
    var j := 0;
    while j < i
      invariant j <= i && FlattenUpTo(bs, j) == []
    {
      j := j + 1;
    }
  }

  /** Every file dealt is in exactly one bucket: together the buckets hold
      the walked files, each as often as it was walked. */
  lemma {:induction false} DealPartitions(files: seq<Entry>, n: nat)
    requires n > 0
    ensures multiset(Flatten(Deal(files, n))) == multiset(files)
    decreases |files|
  {
    if files == [] {
      FlattenEmpty(Deal(files, n), n);
    } else {
      var k := |files| - 1;
      var prev := Deal(files[..k], n);
      DealPartitions(files[..k], n);
      assert Deal(files, n) == prev[k % n := prev[k % n] + [files[k]]];
      FlattenAfterPlace(prev, k % n, files[k], n);
      assert files == files[..k] + [files[k]];
    }
  }

  /** The partition loop: the directories of the walk in order, the files
      of each in order, each appended to the bucket of a counter that
      cycles through 0 .. `multiProcess - 1`. */
  method Partition(walk: seq<WalkStep>, multiProcess: nat) returns (filePathList: seq<seq<Entry>>)
    requires multiProcess > 0
    ensures filePathList == Deal(Enumerate(walk), multiProcess)
  {
    filePathList := seq(multiProcess, _ => []);
    var processN := 0;
    for w := 0 to |walk|
      invariant filePathList == Deal(EnumerateUpTo(walk, w), multiProcess)
      invariant processN == |EnumerateUpTo(walk, w)| % multiProcess
    {
      filePathList, processN := DealFiles(filePathList, processN, walk[w], EnumerateUpTo(walk, w));
    }
  }

  /** The inner loop of the partition: the files of one directory dealt
      onto the buckets, continuing the cycle at `processN`. */
  method DealFiles(buckets: seq<seq<Entry>>, processN: nat, dir: WalkStep, ghost seen: seq<Entry>)
    returns (dealtBuckets: seq<seq<Entry>>, next: nat)
    requires |buckets| > 0
    requires buckets == Deal(seen, |buckets|)
    requires processN == |seen| % |buckets|
    ensures dealtBuckets == Deal(seen + StepEntries(dir), |buckets|)
    ensures next == |seen + StepEntries(dir)| % |buckets|
  {
    var n := |buckets|;
    dealtBuckets, next := buckets, processN;
    ghost var dealt := seen;
    for j := 0 to |dir.files|
      invariant dealt == seen + EntriesUpTo(dir, j)
      invariant dealtBuckets == Deal(dealt, n)
      invariant next == |dealt| % n
    {
      var entry := Entry(Join(dir.root, dir.files[j]), dir.root);
      DealAppend(dealt, entry, n);
      NextCounter(|dealt|, n);
      assert seen + EntriesUpTo(dir, j + 1) == dealt + [entry];
      dealtBuckets := dealtBuckets[next := dealtBuckets[next] + [entry]];
      dealt := dealt + [entry];
      next := if next == n - 1 then 0 else next + 1;
    }
  }

  /** The cycling counter tracks the number of files dealt modulo `n`. */
  lemma NextCounter(x: nat, n: nat)
    requires n > 0
    ensures (x + 1) % n == if x % n == n - 1 then 0 else x % n + 1
  {
    var q, r := x / n, x % n;
    if r == n - 1 {
      assert x + 1 == (q + 1) * n + 0;
      DivModUnique(x + 1, n, q + 1, 0);
    } else {
      DivModUnique(x + 1, n, q, r + 1);
    }
  }

  /** Quotient and remainder are determined by any quotient-remainder
      split. */
  lemma DivModUnique(x: int, n: int, q: int, r: int)
    requires n > 0 && 0 <= r < n && x == q * n + r
    ensures x / n == q && x % n == r
  {
    var q0, r0 := x / n, x % n;
    assert (q - q0) * n == r0 - r;
    if q > q0 {
      MulAtLeast(q - q0, n);
    } else if q < q0 {
      MulAtLeast(q0 - q, n);
    }
  }

  lemma {:induction false} MulAtLeast(d: int, n: int)
    requires d >= 1 && n > 0
    ensures d * n >= n
    decreases d
  {
    if d > 1 {
      MulAtLeast(d - 1, n);
      assert d * n == (d - 1) * n + n;
    }
  }

  /** The file count: the sum of the bucket lengths. */
  method CountFiles(buckets: seq<seq<Entry>>) returns (fileNumber: nat)
    ensures fileNumber == |Flatten(buckets)|
  {
    fileNumber := 0;
    for i := 0 to |buckets|
      invariant fileNumber == |FlattenUpTo(buckets, i)|
    {
      fileNumber := fileNumber + |buckets[i]|;
    }
  }

  /** After the deal, the file count is the number of walked files. */
  lemma FileNumberCountsFiles(walk: seq<WalkStep>, multiProcess: nat)
    requires multiProcess > 0
    ensures |Flatten(Deal(Enumerate(walk), multiProcess))| == |Enumerate(walk)|
  {
    var buckets := Deal(Enumerate(walk), multiProcess);
    DealPartitions(Enumerate(walk), multiProcess);
    assert |multiset(Flatten(buckets))| == |Flatten(buckets)|;
    assert |multiset(Enumerate(walk))| == |Enumerate(walk)|;
  }

  // ---------------------------------------------------------------------
  // One worker.

  /** The saves `process_single_image` makes for one entry: none when the
      file cannot be opened as an image, the whole tree when the plan is
      runnable, and only the base image otherwise. */
  function FileSaves(e: Entry, sizeOf: string -> Option<Size>, plan: Plan, resizeLimit: int): seq<Saved>
  {
    match sizeOf(e.path)
    case None => []
    case Some(size) =>
      var base := BaseNode(e.path, size, resizeLimit);
      if Runnable(plan) then AllSaves(e.root, base, plan) else [SaveOf(e.root, base)]
  }

  /** The saves of the first `i` entries of a bucket. */
  function WorkerLog(bucket: seq<Entry>, sizeOf: string -> Option<Size>, plan: Plan, resizeLimit: int, i: nat): seq<Saved>
    requires i <= |bucket|
  {
    if i == 0 then [] else WorkerLog(bucket, sizeOf, plan, resizeLimit, i - 1) + FileSaves(bucket[i - 1], sizeOf, plan, resizeLimit)
  }

  /** One file of a worker: opened as an image, then expanded. It is done
      when both succeed. */
  method ProcessFile(e: Entry, sizeOf: string -> Option<Size>, plan: Plan, resizeLimit: int)
    returns (done: bool, saves: seq<Saved>)
    ensures done <==> sizeOf(e.path).Some? && Runnable(plan)
    ensures saves == FileSaves(e, sizeOf, plan, resizeLimit)
  {
    var size := sizeOf(e.path);
    if size.None? {
      return false, [];
    }
    var outcome;
    outcome, saves := ProcessSingleImage(e.path, size.value, e.root, plan, resizeLimit);
    done := outcome == Finished;
  }

  /** The first `i` entries of a bucket open as images. */
  predicate LoadableUpTo(bucket: seq<Entry>, sizeOf: string -> Option<Size>, i: nat)
    requires i <= |bucket|
  {
    i == 0 || (LoadableUpTo(bucket, sizeOf, i - 1) && sizeOf(bucket[i - 1].path).Some?)
  }

  /** The worker has finished the first `i` files of its bucket, with
      `log` the saves they made. */
  predicate Worked(bucket: seq<Entry>, sizeOf: string -> Option<Size>, plan: Plan, resizeLimit: int,
                   i: nat, log: seq<Saved>)
  {
    i <= |bucket| && LoadableUpTo(bucket, sizeOf, i) && (i > 0 ==> Runnable(plan)) &&
    log == WorkerLog(bucket, sizeOf, plan, resizeLimit, i)
  }

  /** Finishing one more file keeps the worker's state. */
  lemma WorkedStep(bucket: seq<Entry>, sizeOf: string -> Option<Size>, plan: Plan, resizeLimit: int,
                   i: nat, log: seq<Saved>, saves: seq<Saved>)
    requires Worked(bucket, sizeOf, plan, resizeLimit, i, log) && i < |bucket|
    requires sizeOf(bucket[i].path).Some? && Runnable(plan)
    requires saves == FileSaves(bucket[i], sizeOf, plan, resizeLimit)
    ensures Worked(bucket, sizeOf, plan, resizeLimit, i + 1, log + saves)
  {
  }

  /** What a worker that stopped after `processed` files has done. */
  predicate WorkerStopped(bucket: seq<Entry>, sizeOf: string -> Option<Size>, plan: Plan, resizeLimit: int,
                          processed: nat, log: seq<Saved>)
  {
    processed <= |bucket| &&
    LoadableUpTo(bucket, sizeOf, processed) &&
    (processed > 0 ==> Runnable(plan)) &&
    (processed < |bucket| ==> sizeOf(bucket[processed].path).None? || !Runnable(plan)) &&
    log == WorkerLog(bucket, sizeOf, plan, resizeLimit, processed) +
           (if processed < |bucket| then FileSaves(bucket[processed], sizeOf, plan, resizeLimit) else [])
  }

  /** A file that fails stops the worker. */
  lemma StopAt(bucket: seq<Entry>, sizeOf: string -> Option<Size>, plan: Plan, resizeLimit: int,
               i: nat, log: seq<Saved>, saves: seq<Saved>)
    requires Worked(bucket, sizeOf, plan, resizeLimit, i, log) && i < |bucket|
    requires !(sizeOf(bucket[i].path).Some? && Runnable(plan))
    requires saves == FileSaves(bucket[i], sizeOf, plan, resizeLimit)
    ensures WorkerStopped(bucket, sizeOf, plan, resizeLimit, i, log + saves)
  {
  }

  /** A worker that finishes its bucket stops there. */
  lemma StopAtEnd(bucket: seq<Entry>, sizeOf: string -> Option<Size>, plan: Plan, resizeLimit: int,
                  log: seq<Saved>)
    requires Worked(bucket, sizeOf, plan, resizeLimit, |bucket|, log)
    ensures WorkerStopped(bucket, sizeOf, plan, resizeLimit, |bucket|, log)
  {
    assert log + [] == log;
  }

  lemma {:induction false} LoadableIndices(bucket: seq<Entry>, sizeOf: string -> Option<Size>, i: nat)
    requires i <= |bucket|
    ensures LoadableUpTo(bucket, sizeOf, i) <==> forall k :: 0 <= k < i ==> sizeOf(bucket[k].path).Some?
  {
    if i > 0 {
      LoadableIndices(bucket, sizeOf, i - 1);
    }
  }

  /** A worker gets through its whole bucket exactly when every file in it
      opens as an image and, unless the bucket is empty, the plan is
      runnable; the log is then the saves of every file in order. */
  lemma WorkerFinishesBucket(bucket: seq<Entry>, sizeOf: string -> Option<Size>, plan: Plan, resizeLimit: int,
                             processed: nat, log: seq<Saved>)
    requires WorkerStopped(bucket, sizeOf, plan, resizeLimit, processed, log)
    ensures processed == |bucket| <==>
      (|bucket| == 0 || Runnable(plan)) && forall k :: 0 <= k < |bucket| ==> sizeOf(bucket[k].path).Some?
    ensures processed == |bucket| ==> log == WorkerLog(bucket, sizeOf, plan, resizeLimit, |bucket|)
  {
    LoadableIndices(bucket, sizeOf, processed);
    assert log + [] == log;
  }

  /** With a plan that is not runnable a worker stops at its first file
      and has saved only that file's base image, if the file opens. */
  lemma WorkerStopsAtFirstFile(bucket: seq<Entry>, sizeOf: string -> Option<Size>, plan: Plan, resizeLimit: int,
                               processed: nat, log: seq<Saved>)
    requires WorkerStopped(bucket, sizeOf, plan, resizeLimit, processed, log) && !Runnable(plan)
    ensures processed == 0
    ensures |bucket| > 0 ==> log == FileSaves(bucket[0], sizeOf, plan, resizeLimit)
    ensures |bucket| > 0 && sizeOf(bucket[0].path).Some? ==>
      log == [SaveOf(bucket[0].root, BaseNode(bucket[0].path, sizeOf(bucket[0].path).value, resizeLimit))]
    ensures |bucket| == 0 ==> log == []
  {
  }

  /** One entry of the dictionary the workers share with the progress
      monitor: the number of files one worker has finished. */
  class Counter {
    var value: int

    constructor (v: int)
      ensures value == v
    {
      value := v;
    }
  }

  /** The shared dictionary: one counter per worker, all at zero. */
  method NewProcessDict(multiProcess: nat) returns (processDict: seq<Counter>)
    ensures |processDict| == multiProcess
    ensures forall b :: 0 <= b < multiProcess ==> fresh(processDict[b]) && processDict[b].value == 0
    ensures forall b, c :: 0 <= b < c < multiProcess ==> processDict[b] != processDict[c]
  {
    processDict := [];
    for processN := 0 to multiProcess
      invariant |processDict| == processN
      invariant forall b :: 0 <= b < processN ==> fresh(processDict[b]) && processDict[b].value == 0
      invariant forall b, c :: 0 <= b < c < processN ==> processDict[b] != processDict[c]
    {
      var counter := new Counter(0);
      processDict := processDict + [counter];
    }
  }

  /** `process_image`: the worker's files in order, each expanded and its
      counter incremented after it. An error ends the worker: a file that
      is not an image, or a job that cannot be called, which the first
      file already meets. `sizeOf` stands for opening a file as an image. */
  method ProcessImage(bucket: seq<Entry>, slot: Counter,
                      sizeOf: string -> Option<Size>, plan: Plan, resizeLimit: int)
    returns (processed: nat, log: seq<Saved>)
    modifies slot
    ensures WorkerStopped(bucket, sizeOf, plan, resizeLimit, processed, log)
    ensures slot.value == old(slot.value) + processed
  {
    log := [];
    for i := 0 to |bucket|
      invariant Worked(bucket, sizeOf, plan, resizeLimit, i, log)
      invariant slot.value == old(slot.value) + i
    {
      var done, saves := ProcessFile(bucket[i], sizeOf, plan, resizeLimit);
      if !done {
        StopAt(bucket, sizeOf, plan, resizeLimit, i, log, saves);
        processed, log := i, log + saves;
        return;
      }
      WorkedStep(bucket, sizeOf, plan, resizeLimit, i, log, saves);
      log := log + saves;
      slot.value := slot.value + 1;
    }
    StopAtEnd(bucket, sizeOf, plan, resizeLimit, log);
    processed := |bucket|;
  }
}
