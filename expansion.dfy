/** The augmentation engine: one input image is expanded, round by round,
    into every combination of transforms whose level indices strictly
    increase, and every node is saved once, in the round in which it is in
    the frontier.

    Images are symbolic: an `Image` value is the term that names how the
    picture was obtained (loaded from a file, resized, or produced by one
    call of a job's transform on another image). The transforms themselves
    are foreign and random; a term stands for whatever they return, and the
    `draw` index keeps apart the `times` calls made on the same input. */
module Expansion {
  import opened Wrappers
  import opened Paths
  import opened Jobs

  /** Width and height in pixels, as the image decoder reports them. */
  datatype Size = Size(width: int, height: int)

  datatype Image =
    | Loaded(path: string, size: Size)
    | Resized(source: Image, limit: int)
    | Transformed(job: Job, level: nat, source: Image, draw: nat)

  /** One entry of a frontier: an image, its file name without extension,
      and `jobNumber`, the level that produced it (0 for the base image). */
  datatype Node = Node(image: Image, name: string, jobNumber: nat)

  /** One call of `image.save`: the path written, the image written, and
      the level of the node it came from. */
  datatype Saved = Saved(file: string, image: Image, level: nat)

  /** How the expansion of one file ends: normally, or with the error
      raised by calling a job that cannot be called (the missing transform
      of an unrecognised `func`, or a crop without its ratios). */
  datatype Outcome = Finished | CallFailed

  /** The longest side of an image. */
  function MaxLength(size: Size): int
  {
    if size.width > size.height then size.width else size.height
  }

  /** The resize guard: an image is scaled down exactly when one of its
      sides exceeds the limit. */
  function NeedsResize(size: Size, resizeLimit: int): (r: bool)
    ensures r <==> size.width > resizeLimit || size.height > resizeLimit
  {
    MaxLength(size) > resizeLimit
  }

  /** The root of the expansion of the file at `imagePath`. */
  function BaseNode(imagePath: string, size: Size, resizeLimit: int): Node
  {
    var loaded := Loaded(imagePath, size);
    Node(if NeedsResize(size, resizeLimit) then Resized(loaded, resizeLimit) else loaded, BaseName(imagePath), 0)
  }

  /** The child the `d`-th call of `job`'s transform gives `n` at level
      `level`: named after the parent and the job's `func`. */
  function Draw(n: Node, job: Job, level: nat, d: nat): Node
  {
    Node(Transformed(job, level, n.image, d), n.name + "_" + job.func, level)
  }

  /** The children of the first `count` calls of `job`'s transform. */
  function Draws(n: Node, job: Job, level: nat, count: nat): (r: seq<Node>)
    ensures |r| == count
  {
    if count == 0 then [] else Draws(n, job, level, count - 1) + [Draw(n, job, level, count - 1)]
  }

  /** The children one job gives `n` at level `level`: one per call of its
      transform. */
  function JobChildren(n: Node, job: Job, level: nat): (r: seq<Node>)
    ensures |r| == Reps(job.times)
  {
    Draws(n, job, level, Reps(job.times))
  }

  /** The `d`-th child of a job is its `d`-th draw. */
  lemma {:induction false} DrawsAt(n: Node, job: Job, level: nat, count: nat, d: nat)
    requires d < count
    ensures Draws(n, job, level, count)[d] == Draw(n, job, level, d)
  {
    if d < count - 1 {
      DrawsAt(n, job, level, count - 1, d);
    }
  }

  /** The children all jobs of one level give `n`, in job order. */
  function LevelChildren(n: Node, jobs: seq<Job>, level: nat): (r: seq<Node>)
    ensures |r| == Fanout(jobs)
  {
    LevelChildrenUpTo(n, jobs, level, |jobs|)
  }

  /** The children the first `j` jobs of a level give `n`. */
  function LevelChildrenUpTo(n: Node, jobs: seq<Job>, level: nat, j: nat): (r: seq<Node>)
    requires j <= |jobs|
    ensures |r| == FanoutUpTo(jobs, j)
  {
    if j == 0 then [] else LevelChildrenUpTo(n, jobs, level, j - 1) + JobChildren(n, jobs[j - 1], level)
  }

  /** The children of `n` from levels 1 to `k`: only levels whose index
      exceeds `n.jobNumber` contribute. */
  function SpawnUpTo(n: Node, plan: Plan, k: nat): seq<Node>
    requires k <= |plan|
  {
    if k <= n.jobNumber then [] else SpawnUpTo(n, plan, k - 1) + LevelChildren(n, plan[k - 1], k)
  }

  /** One more level: it adds its children when its index exceeds the
      node's own level, and nothing otherwise. */
  lemma SpawnUpToStep(n: Node, plan: Plan, k: nat)
    requires 0 < k <= |plan|
    ensures n.jobNumber < k ==> SpawnUpTo(n, plan, k) == SpawnUpTo(n, plan, k - 1) + LevelChildren(n, plan[k - 1], k)
    ensures k <= n.jobNumber ==> SpawnUpTo(n, plan, k) == SpawnUpTo(n, plan, k - 1)
  {
  }

  lemma SpawnUpToSkip(n: Node, plan: Plan, k: nat)
    requires 0 < k <= |plan| && k <= n.jobNumber
    ensures SpawnUpTo(n, plan, k) == SpawnUpTo(n, plan, k - 1)
  {
    SpawnUpToStep(n, plan, k);
  }

  lemma SpawnUpToGrow(n: Node, plan: Plan, k: nat, below: seq<Node>, children: seq<Node>)
    requires 0 < k <= |plan| && n.jobNumber < k
    requires below == SpawnUpTo(n, plan, k - 1) && children == LevelChildren(n, plan[k - 1], k)
    ensures below + children == SpawnUpTo(n, plan, k)
  {
    SpawnUpToStep(n, plan, k);
  }

  /** All children of `n`. */
  function Spawn(n: Node, plan: Plan): seq<Node>
  {
    SpawnUpTo(n, plan, |plan|)
  }

  /** The next frontier: the children of every node, in frontier order. */
  function NextFrontier(f: seq<Node>, plan: Plan): seq<Node>
  {
    NextFrontierUpTo(f, plan, |f|)
  }

  /** The children of the first `i` nodes of `f`. */
  function NextFrontierUpTo(f: seq<Node>, plan: Plan, i: nat): seq<Node>
    requires i <= |f|
  {
    if i == 0 then [] else NextFrontierUpTo(f, plan, i - 1) + Spawn(f[i - 1], plan)
  }

  /** The frontier of round `round` (0-based). */
  function Frontier(base: Node, plan: Plan, round: nat): seq<Node>
  {
    if round == 0 then [base] else NextFrontier(Frontier(base, plan, round - 1), plan)
  }

  /** The save of one node: `<dir>/<name>.jpg`. */
  function SaveOf(dir: string, n: Node): Saved
  {
    Saved(Join(dir, n.name + ".jpg"), n.image, n.jobNumber)
  }

  /** The saves of one round, in frontier order. */
  function SaveRound(dir: string, f: seq<Node>): (r: seq<Saved>)
    ensures |r| == |f|
  {
    SaveRoundUpTo(dir, f, |f|)
  }

  /** The saves of the first `i` nodes of `f`. */
  function SaveRoundUpTo(dir: string, f: seq<Node>, i: nat): (r: seq<Saved>)
    requires i <= |f|
    ensures |r| == i
  {
    if i == 0 then [] else SaveRoundUpTo(dir, f, i - 1) + [SaveOf(dir, f[i - 1])]
  }

  /** The saves of the first `rounds` rounds. */
  function SavesUpTo(dir: string, base: Node, plan: Plan, rounds: nat): seq<Saved>
  {
    if rounds == 0 then [] else SavesUpTo(dir, base, plan, rounds - 1) + SaveRound(dir, Frontier(base, plan, rounds - 1))
  }

  /** Everything the expansion of `base` saves: a node in round k has had k
      transforms applied, so no round after round `|plan|` has a node. */
  function AllSaves(dir: string, base: Node, plan: Plan): seq<Saved>
  {
    SavesUpTo(dir, base, plan, |plan| + 1)
  }

  // ---------------------------------------------------------------------
  // The levels the nodes of a sequence come from.

  /** Every node of `s` was produced by a level from `lo` to `hi`. */
  predicate InLevels(s: seq<Node>, lo: nat, hi: nat)
  {
    InLevelsUpTo(s, lo, hi, |s|)
  }

  /** Each of the first `i` nodes of `s` was produced by a level from `lo`
      to `hi`. */
  predicate InLevelsUpTo(s: seq<Node>, lo: nat, hi: nat, i: nat)
    requires i <= |s|
  {
    i == 0 || (InLevelsUpTo(s, lo, hi, i - 1) && lo <= s[i - 1].jobNumber <= hi)
  }

  lemma {:induction false} InLevelsUpToIndices(s: seq<Node>, lo: nat, hi: nat, i: nat)
    requires i <= |s|
    ensures InLevelsUpTo(s, lo, hi, i) <==> forall k :: 0 <= k < i ==> lo <= s[k].jobNumber <= hi
  {
    if i > 0 {
      InLevelsUpToIndices(s, lo, hi, i - 1);
    }
  }

  /** `InLevels` bounds the level of the node at every index. */
  lemma InLevelsIndices(s: seq<Node>, lo: nat, hi: nat)
    ensures InLevels(s, lo, hi) <==> forall k :: 0 <= k < |s| ==> lo <= s[k].jobNumber <= hi
  {
    InLevelsUpToIndices(s, lo, hi, |s|);
  }

  lemma InLevelsAt(s: seq<Node>, lo: nat, hi: nat, i: nat)
    requires InLevels(s, lo, hi) && i < |s|
    ensures lo <= s[i].jobNumber <= hi
  {
    InLevelsIndices(s, lo, hi);
  }

  lemma InLevelsAppend(a: seq<Node>, b: seq<Node>, lo: nat, hi: nat)
    requires InLevels(a, lo, hi) && InLevels(b, lo, hi)
    ensures InLevels(a + b, lo, hi)
  {
    InLevelsIndices(a, lo, hi);
    InLevelsIndices(b, lo, hi);
    InLevelsIndices(a + b, lo, hi);
    forall k | 0 <= k < |a + b|
      ensures lo <= (a + b)[k].jobNumber <= hi
    {
      if k < |a| {
        assert (a + b)[k] == a[k];
      } else {
        assert (a + b)[k] == b[k - |a|];
      }
    }
  }

  /** A wider range of levels holds for every node a narrower one holds for. */
  lemma LevelsWiden(s: seq<Node>, lo: nat, hi: nat, lo': nat, hi': nat)
    requires InLevels(s, lo, hi) && lo' <= lo && hi <= hi'
    ensures InLevels(s, lo', hi')
  {
    InLevelsIndices(s, lo, hi);
    InLevelsIndices(s, lo', hi');
  }

  /** Nodes of levels `lo` to `k - 1` followed by nodes of level `k` are
      nodes of levels `lo` to `k`. */
  lemma LevelsExtend(below: seq<Node>, children: seq<Node>, lo: nat, k: nat)
    requires 0 < k && lo <= k
    requires InLevels(below, lo, k - 1) && InLevels(children, k, k)
    ensures InLevels(below + children, lo, k)
  {
    LevelsWiden(below, lo, k - 1, lo, k);
    LevelsWiden(children, k, k, lo, k);
    InLevelsAppend(below, children, lo, k);
  }

  /** Every draw of a job carries the level it was drawn at. */
  lemma DrawsLevel(n: Node, job: Job, level: nat, count: nat)
    ensures InLevels(Draws(n, job, level, count), level, level)
  {
    InLevelsIndices(Draws(n, job, level, count), level, level);
    forall d | 0 <= d < count
      ensures level <= Draws(n, job, level, count)[d].jobNumber <= level
    {
      DrawsAt(n, job, level, count, d);
    }
  }

  /** Every child a level gives carries that level's index. */
  lemma LevelChildrenLevel(n: Node, jobs: seq<Job>, level: nat)
    ensures InLevels(LevelChildren(n, jobs, level), level, level)
  {
    var j := 0;
    while j < |jobs|
      invariant j <= |jobs| && InLevels(LevelChildrenUpTo(n, jobs, level, j), level, level)
    {
      LevelChildrenLevelStep(n, jobs, level, j);
      j := j + 1;
    }
  }

  lemma LevelChildrenLevelStep(n: Node, jobs: seq<Job>, level: nat, j: nat)
    requires j < |jobs| && InLevels(LevelChildrenUpTo(n, jobs, level, j), level, level)
    ensures InLevels(LevelChildrenUpTo(n, jobs, level, j + 1), level, level)
  {
    DrawsLevel(n, jobs[j], level, Reps(jobs[j].times));
    InLevelsAppend(LevelChildrenUpTo(n, jobs, level, j), JobChildren(n, jobs[j], level), level, level);
  }

  /** A node's children come only from levels above its own, and each
      child's `jobNumber` is the level that produced it. */
  lemma SpawnLevels(n: Node, plan: Plan, k: nat)
    requires k <= |plan|
    ensures InLevels(SpawnUpTo(n, plan, k), n.jobNumber + 1, k)
  {
    var m := 0;
    while m < k
      invariant m <= k && InLevels(SpawnUpTo(n, plan, m), n.jobNumber + 1, m)
    {
      SpawnLevelsStep(n, plan, m);
      m := m + 1;
    }
  }

  lemma SpawnLevelsStep(n: Node, plan: Plan, k: nat)
    requires k < |plan| && InLevels(SpawnUpTo(n, plan, k), n.jobNumber + 1, k)
    ensures InLevels(SpawnUpTo(n, plan, k + 1), n.jobNumber + 1, k + 1)
  {
    if n.jobNumber <= k {
      LevelChildrenLevel(n, plan[k], k + 1);
      LevelsExtend(SpawnUpTo(n, plan, k), LevelChildren(n, plan[k], k + 1), n.jobNumber + 1, k + 1);
    }
  }

  /** Children lie above the lowest level of their parents and within the
      plan. */
  lemma NextFrontierAbove(f: seq<Node>, plan: Plan, k: nat)
    requires InLevels(f, k, |plan|)
    ensures InLevels(NextFrontier(f, plan), k + 1, |plan|)
  {
    var i := 0;
    while i < |f|
      invariant i <= |f| && InLevels(NextFrontierUpTo(f, plan, i), k + 1, |plan|)
    {
      InLevelsAt(f, k, |plan|, i);
      NextFrontierAboveStep(f, plan, k, i);
      i := i + 1;
    }
  }

  lemma NextFrontierAboveStep(f: seq<Node>, plan: Plan, k: nat, i: nat)
    requires i < |f| && k <= f[i].jobNumber
    requires InLevels(NextFrontierUpTo(f, plan, i), k + 1, |plan|)
    ensures InLevels(NextFrontierUpTo(f, plan, i + 1), k + 1, |plan|)
  {
    SpawnAbove(f[i], plan, k);
    InLevelsAppend(NextFrontierUpTo(f, plan, i), Spawn(f[i], plan), k + 1, |plan|);
  }

  /** The children of a node of level `k` or above lie above level `k`. */
  lemma SpawnAbove(n: Node, plan: Plan, k: nat)
    requires k <= n.jobNumber
    ensures InLevels(Spawn(n, plan), k + 1, |plan|)
  {
    SpawnLevels(n, plan, |plan|);
    LevelsWiden(Spawn(n, plan), n.jobNumber + 1, |plan|, k + 1, |plan|);
  }

  /** Every node of round k was produced by level k or later, and no level
      beyond the plan produces anything. */
  lemma FrontierLevels(base: Node, plan: Plan, round: nat)
    requires base.jobNumber == 0
    ensures InLevels(Frontier(base, plan, round), round, |plan|)
  {
    var r := 0;
    assert InLevelsUpTo(Frontier(base, plan, 0), 0, |plan|, 0);
    while r < round
      invariant r <= round && InLevels(Frontier(base, plan, r), r, |plan|)
    {
      NextFrontierAbove(Frontier(base, plan, r), plan, r);
      r := r + 1;
    }
  }

  /** Nodes of the last level have no children. */
  lemma NextFrontierOfLastLevel(f: seq<Node>, plan: Plan)
    requires InLevels(f, |plan|, |plan|)
    ensures NextFrontier(f, plan) == []
  {
    var i := 0;
    while i < |f|
      invariant i <= |f| && NextFrontierUpTo(f, plan, i) == []
    {
      InLevelsAt(f, |plan|, |plan|, i);
      assert NextFrontierUpTo(f, plan, i + 1) == NextFrontierUpTo(f, plan, i) + Spawn(f[i], plan);
      i := i + 1;
    }
  }

  /** The expansion ends by round `|plan| + 1`: that frontier is empty. */
  lemma FrontierEmptyAfterLastLevel(base: Node, plan: Plan)
    requires base.jobNumber == 0
    ensures Frontier(base, plan, |plan| + 1) == []
  {
    FrontierLevels(base, plan, |plan|);
    NextFrontierOfLastLevel(Frontier(base, plan, |plan|), plan);
  }

  /** Once a frontier is empty, no later round saves anything. */
  lemma SavesSettle(dir: string, base: Node, plan: Plan, k: nat, m: nat)
    requires k <= m
    requires Frontier(base, plan, k) == []
    ensures Frontier(base, plan, m) == []
    ensures SavesUpTo(dir, base, plan, m) == SavesUpTo(dir, base, plan, k)
  {
    var r := k;
    while r < m
      invariant k <= r <= m && Frontier(base, plan, r) == []
      invariant SavesUpTo(dir, base, plan, r) == SavesUpTo(dir, base, plan, k)
    {
      SettleStep(dir, base, plan, r);
      r := r + 1;
    }
  }

  lemma SettleStep(dir: string, base: Node, plan: Plan, r: nat)
    requires Frontier(base, plan, r) == []
    ensures Frontier(base, plan, r + 1) == []
    ensures SavesUpTo(dir, base, plan, r + 1) == SavesUpTo(dir, base, plan, r)
  {
    var empty: seq<Node> := [];
    assert Frontier(base, plan, r + 1) == NextFrontier(empty, plan) == [];
    assert SavesUpTo(dir, base, plan, r + 1) == SavesUpTo(dir, base, plan, r) + SaveRound(dir, empty);
  }

  /** The innermost loop: `times` calls of one job's transform on `result`,
      returning the children it appends to `tmp_list`. The first call
      fails when the transform is missing, or is a crop whose ratios are
      missing; nothing is appended then. */
  method CallJob(result: Node, job: Job, jobNumber: nat) returns (missing: bool, children: seq<Node>)
    ensures missing <==> Reps(job.times) > 0 && !Callable(job)
    ensures !missing ==> children == JobChildren(result, job, jobNumber)
  {
    children := [];
    var times := 0;
    while times < job.times
      invariant 0 <= times <= Reps(job.times)
      invariant children == Draws(result, job, jobNumber, times)
      invariant times > 0 ==> Callable(job)
    {
      if !Callable(job) {
        return true, children;
      }
      children := children + [Node(Transformed(job, jobNumber, result.image, times), result.name + "_" + job.func, jobNumber)];
      times := times + 1;
    }
    missing := false;
  }

  /** The jobs of one level, in order, expanding `result`. */
  method ExpandLevel(result: Node, parallelJob: seq<Job>, jobNumber: nat) returns (missing: bool, children: seq<Node>)
    ensures missing <==> !LevelRunnable(parallelJob)
    ensures !missing ==> children == LevelChildren(result, parallelJob, jobNumber)
  {
    children := [];
    for j := 0 to |parallelJob|
      invariant children == LevelChildrenUpTo(result, parallelJob, jobNumber, j)
      invariant LevelRunnableUpTo(parallelJob, j)
    {
      var jobChildren;
      missing, jobChildren := CallJob(result, parallelJob[j], jobNumber);
      if missing {
        LevelRunnableIndices(parallelJob, |parallelJob|);
        return;
      }
      children := children + jobChildren;
    }
    missing := false;
  }

  /** The loop over the levels for one node: levels whose index does not
      exceed the node's `jobNumber` are skipped. */
  method ExpandNode(result: Node, plan: Plan) returns (missing: bool, children: seq<Node>)
    ensures missing <==> !RunnableFrom(plan, result.jobNumber)
    ensures !missing ==> children == Spawn(result, plan)
  {
    children := [];
    for jobNumber := 1 to |plan| + 1
      invariant children == SpawnUpTo(result, plan, jobNumber - 1)
      invariant RunnableBetween(plan, result.jobNumber, jobNumber - 1)
    {
      if jobNumber <= result.jobNumber {
        SpawnUpToSkip(result, plan, jobNumber);
        continue;
      }
      var levelChildren;
      missing, levelChildren := ExpandLevel(result, plan[jobNumber - 1], jobNumber);
      if missing {
        LevelNotRunnable(plan, result.jobNumber, jobNumber - 1);
        return;
      }
      SpawnUpToGrow(result, plan, jobNumber, children, levelChildren);
      children := children + levelChildren;
    }
    RunnableBetweenAll(plan, result.jobNumber);
    missing := false;
  }

  /** One round of the loop: every node of the frontier is saved and then
      expanded, in frontier order; returns the round's saves and the next
      frontier. When a node meets a job that cannot be called the round stops
      after that node's save. */
  method RunRound(resultList: seq<Node>, savePath: string, plan: Plan)
    returns (missing: bool, saves: seq<Saved>, tmpList: seq<Node>, ghost failed: nat)
    ensures !missing && resultList != [] ==> RunnableFrom(plan, resultList[0].jobNumber)
    ensures !missing ==> saves == SaveRound(savePath, resultList) && tmpList == NextFrontier(resultList, plan)
    ensures missing ==> failed < |resultList| && !RunnableFrom(plan, resultList[failed].jobNumber)
                        && saves == SaveRoundUpTo(savePath, resultList, failed + 1)
  {
    tmpList := [];
    saves := [];
    failed := 0;
    for i := 0 to |resultList|
      invariant tmpList == NextFrontierUpTo(resultList, plan, i)
      invariant saves == SaveRoundUpTo(savePath, resultList, i)
      invariant i > 0 ==> RunnableFrom(plan, resultList[0].jobNumber)
    {
      var result := resultList[i];
      saves := saves + [SaveOf(savePath, result)];
      var children;
      missing, children := ExpandNode(result, plan);
      if missing {
        failed := i;
        return;
      }
      tmpList := tmpList + children;
    }
    missing := false;
  }

  /** A runnable plan can call every job called on any node. */
  lemma RunnableEverywhere(plan: Plan, k: nat)
    ensures Runnable(plan) ==> RunnableFrom(plan, k)
  {
    RunnableFromAll(plan, 0);
    RunnableFromAll(plan, k);
  }

  /** What the loop of `process_single_image` keeps before round `round`:
      the frontier is that round's, everything before it is saved, and
      every round so far completed only if the plan is runnable. */
  predicate BeforeRound(savePath: string, base: Node, plan: Plan, round: nat, resultList: seq<Node>, saves: seq<Saved>)
  {
    && round <= |plan| + 1
    && resultList == Frontier(base, plan, round)
    && saves == SavesUpTo(savePath, base, plan, round)
    && (round > 0 ==> Runnable(plan))
  }

  /** A round that meets a job that cannot be called is round 0: in any later
      round the plan was already found runnable. Only the base node is
      saved before the failure. */
  lemma MissingAtBase(savePath: string, base: Node, plan: Plan, round: nat, resultList: seq<Node>,
                      saves: seq<Saved>, roundSaves: seq<Saved>, i: nat)
    requires base.jobNumber == 0 && BeforeRound(savePath, base, plan, round, resultList, saves)
    requires i < |resultList| && roundSaves == SaveRoundUpTo(savePath, resultList, i + 1)
    requires !RunnableFrom(plan, resultList[i].jobNumber)
    ensures !Runnable(plan) && saves + roundSaves == [SaveOf(savePath, base)]
  {
    RunnableEverywhere(plan, resultList[i].jobNumber);
    assert resultList == [base] && i == 0;
  }

  /** A round that completes: the saves of the frontier are appended, its
      children become the frontier of the next round, the plan is known to
      be runnable, and the frontier was not past the last level. */
  lemma NextRound(savePath: string, base: Node, plan: Plan, round: nat, prevList: seq<Node>,
                  prevSaves: seq<Saved>, roundSaves: seq<Saved>, resultList: seq<Node>)
    requires base.jobNumber == 0 && BeforeRound(savePath, base, plan, round, prevList, prevSaves)
    requires prevList != [] && RunnableFrom(plan, prevList[0].jobNumber)
    requires roundSaves == SaveRound(savePath, prevList) && resultList == NextFrontier(prevList, plan)
    ensures BeforeRound(savePath, base, plan, round + 1, resultList, prevSaves + roundSaves)
  {
    FrontierLevels(base, plan, round);
    InLevelsAt(prevList, round, |plan|, 0);
    if round == 0 {
      RunnableEverywhere(plan, 0);
    }
  }

  /** The loop of `process_single_image`: each round saves every node of
      the frontier as `<savePath>/<name>.jpg` and collects the children of
      each node into the next frontier; an empty frontier ends the loop. A
      job that cannot be called is called while the base node is expanded,
      right after the base image is saved, and ends the loop with that one
      save. */
  method ExpandRounds(base: Node, savePath: string, plan: Plan) returns (outcome: Outcome, saves: seq<Saved>)
    requires base.jobNumber == 0
    ensures outcome == Finished <==> Runnable(plan)
    ensures outcome == Finished ==> saves == AllSaves(savePath, base, plan)
    ensures outcome == CallFailed ==> saves == [SaveOf(savePath, base)]
  {
    var resultList := [base];
    var tmpList: seq<Node> := [];
    ghost var round: nat := 0;
    saves := [];
    while |resultList| > 0
      invariant BeforeRound(savePath, base, plan, round, resultList, saves)
      decreases |plan| + 1 - round
    {
      var missing, roundSaves;
      ghost var failed;
      missing, roundSaves, tmpList, failed := RunRound(resultList, savePath, plan);
      if missing {
        MissingAtBase(savePath, base, plan, round, resultList, saves, roundSaves, failed);
        saves := saves + roundSaves;
        outcome := CallFailed;
        return;
      }
      NextRound(savePath, base, plan, round, resultList, saves, roundSaves, tmpList);
      saves := saves + roundSaves;
      resultList := tmpList;
      tmpList := [];
      round := round + 1;
    }
    SavesSettle(savePath, base, plan, round, |plan| + 1);
    outcome := Finished;
  }

  /** `process_single_image` after loading the image: the resize guard
      gives the base image, the base name names it, and the rounds expand
      it. The plan is runnable exactly when the expansion finishes; it then
      saves the whole tree, and otherwise only the base image. */
  method ProcessSingleImage(imagePath: string, size: Size, savePath: string, plan: Plan, resizeLimit: int)
    returns (outcome: Outcome, saves: seq<Saved>)
    ensures outcome == Finished <==> Runnable(plan)
    ensures outcome == Finished ==> saves == AllSaves(savePath, BaseNode(imagePath, size, resizeLimit), plan)
    ensures outcome == CallFailed ==> saves == [SaveOf(savePath, BaseNode(imagePath, size, resizeLimit))]
  {
    var baseImage := Loaded(imagePath, size);
    var baseName := BaseName(imagePath);
    var maxLength := if size.width > size.height then size.width else size.height;
    if maxLength > resizeLimit {
      baseImage := Resized(baseImage, resizeLimit);
    }
    var base := Node(baseImage, baseName, 0);
    assert base == BaseNode(imagePath, size, resizeLimit);
    outcome, saves := ExpandRounds(base, savePath, plan);
  }
}
