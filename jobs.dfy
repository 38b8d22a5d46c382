/** The job plan: the ordered list of levels the configuration describes,
    each level a list of jobs `{func, tf, times}`. The transform a job
    applies is a closed variant over the recognised `func` symbols; the
    pixel work it stands for is outside this model. */
module Jobs {
  import opened Wrappers

  /** A numeric value read from a job descriptor, absent when the
      descriptor does not set that key. */
  type Param = Option<real>

  /** The transform objects the configuration can build. The up/down
      variants of brightness, contrast and saturation build the same kind
      of jitter; the range in the descriptor decides the direction. */
  datatype Transform =
    | HorizontalFlip
    | Crop(wP: Param, hP: Param)
    | Rotation(minDegrees: Param, maxDegrees: Param)
    | Grayscale
    | Brightness(minFactor: Param, maxFactor: Param)
    | Contrast(minFactor: Param, maxFactor: Param)
    | Saturation(minFactor: Param, maxFactor: Param)

  /** One job descriptor of the configuration, as parsed from JSON. */
  datatype JobConfig = JobConfig(func: string, times: int, wP: Param, hP: Param, min: Param, max: Param)

  /** One job of the plan. `tf` is None when `func` is not recognised. */
  datatype Job = Job(func: string, tf: Option<Transform>, times: int)

  /** Levels in configuration order; level i (1-based) is `plan[i - 1]`. */
  type Plan = seq<seq<Job>>

  /** The `func` symbols that build a transform. */
  const Recognised: set<string> := {"h", "c", "r", "g", "bu", "bd", "cu", "cd", "su", "sd"}

  /** The `func` symbols that select the kind of `t`. */
  function Kinds(t: Transform): set<string>
  {
    match t
    case HorizontalFlip => {"h"}
    case Crop(_, _) => {"c"}
    case Rotation(_, _) => {"r"}
    case Grayscale => {"g"}
    case Brightness(_, _) => {"bu", "bd"}
    case Contrast(_, _) => {"cu", "cd"}
    case Saturation(_, _) => {"su", "sd"}
  }

  /** `t` carries exactly the parameters its kind reads from `job`. */
  predicate CarriesParams(t: Transform, job: JobConfig)
  {
    match t
    case HorizontalFlip => true
    case Grayscale => true
    case Crop(w, h) => w == job.wP && h == job.hP
    case Rotation(lo, hi) => lo == job.min && hi == job.max
    case Brightness(lo, hi) => lo == job.min && hi == job.max
    case Contrast(lo, hi) => lo == job.min && hi == job.max
    case Saturation(lo, hi) => lo == job.min && hi == job.max
  }

  /** Builds the job record for one descriptor: the transform exists
      exactly for a recognised `func`, is of the kind `func` names and takes
      its parameters from the descriptor; `func` and `times` are copied. */
  function ChooseJob(job: JobConfig): (r: Job)
    ensures r.func == job.func && r.times == job.times
    ensures r.tf.Some? <==> job.func in Recognised
    ensures r.tf.Some? ==> job.func in Kinds(r.tf.value) && CarriesParams(r.tf.value, job)
  {
    var tf :=
      if job.func == "h" then Some(HorizontalFlip)
      else if job.func == "c" then Some(Crop(job.wP, job.hP))
      else if job.func == "r" then Some(Rotation(job.min, job.max))
      else if job.func == "g" then Some(Grayscale)
      else if job.func == "bu" || job.func == "bd" then Some(Brightness(job.min, job.max))
      else if job.func == "cu" || job.func == "cd" then Some(Contrast(job.min, job.max))
      else if job.func == "su" || job.func == "sd" then Some(Saturation(job.min, job.max))
      else None;
    Job(job.func, tf, job.times)
  }

  /** Builds the plan level by level, keeping the levels and the jobs in
      each level in configuration order. */
  method BuildJobList(config: seq<seq<JobConfig>>) returns (jobList: Plan)
    ensures |jobList| == |config|
    ensures forall i :: 0 <= i < |config| ==> |jobList[i]| == |config[i]|
    ensures forall i, j :: 0 <= i < |config| && 0 <= j < |config[i]| ==> jobList[i][j] == ChooseJob(config[i][j])
  {
    var tmpJobList: Plan := [];
    for i := 0 to |config|
      invariant |tmpJobList| == i
      invariant forall i' :: 0 <= i' < i ==> |tmpJobList[i']| == |config[i']|
      invariant forall i', j :: 0 <= i' < i && 0 <= j < |config[i']| ==> tmpJobList[i'][j] == ChooseJob(config[i'][j])
    {
      var parallelJobList: seq<Job> := [];
      for j := 0 to |config[i]|
        invariant |parallelJobList| == j
        invariant forall j' :: 0 <= j' < j ==> parallelJobList[j'] == ChooseJob(config[i][j'])
      {
        parallelJobList := parallelJobList + [ChooseJob(config[i][j])];
      }
      tmpJobList := tmpJobList + [parallelJobList];
    }
    jobList := tmpJobList;
  }

  /** The number of transform calls `range(times)` makes: none for a
      non-positive count. */
  function Reps(times: int): (n: nat)
    ensures n as int == times || (times <= 0 && n == 0)
  {
    if times > 0 then times else 0
  }

  /** The fan-out of a level: the number of children one node gets from it,
      the sum of its jobs' repetition counts. */
  function Fanout(level: seq<Job>): nat
  {
    FanoutUpTo(level, |level|)
  }

  /** The fan-out of the first `j` jobs of a level. */
  function FanoutUpTo(level: seq<Job>, j: nat): nat
    requires j <= |level|
  {
    if j == 0 then 0 else FanoutUpTo(level, j - 1) + Reps(level[j - 1].times)
  }

  /** Calling the job's transform does not raise: the transform exists
      and, for a crop, both ratios are set, since the crop multiplies them
      by the image's sides before it cuts. */
  predicate Callable(job: Job)
  {
    job.tf.Some? && (job.tf.value.Crop? ==> job.tf.value.wP.Some? && job.tf.value.hP.Some?)
  }

  /** A descriptor the expansion can call: a recognised `func` and, for
      `c`, both `w_p` and `h_p`. */
  predicate Complete(job: JobConfig)
  {
    job.func in Recognised && (job.func == "c" ==> job.wP.Some? && job.hP.Some?)
  }

  /** The job built from a descriptor can be called exactly when `func` is
      recognised and, for a crop, both ratios are given. */
  lemma ChosenCallable(job: JobConfig)
    ensures Callable(ChooseJob(job)) <==> Complete(job)
  {
  }

  /** Every job of a level that is called at least once can be called. */
  predicate LevelRunnable(level: seq<Job>)
  {
    LevelRunnableUpTo(level, |level|)
  }

  /** The first `j` jobs of a level that are called can be called. */
  predicate LevelRunnableUpTo(level: seq<Job>, j: nat)
    requires j <= |level|
  {
    j == 0 || (LevelRunnableUpTo(level, j - 1) && (Reps(level[j - 1].times) > 0 ==> Callable(level[j - 1])))
  }

  lemma {:induction false} LevelRunnableIndices(level: seq<Job>, j: nat)
    requires j <= |level|
    ensures LevelRunnableUpTo(level, j) <==> forall q :: 0 <= q < j && Reps(level[q].times) > 0 ==> Callable(level[q])
  {
    if j > 0 {
      LevelRunnableIndices(level, j - 1);
    }
  }

  /** Every level from index `k` on is runnable: the jobs called on a node
      of level `k` all have a transform. */
  predicate RunnableFrom(plan: Plan, k: nat)
    decreases |plan| - k
  {
    k >= |plan| || (LevelRunnable(plan[k]) && RunnableFrom(plan, k + 1))
  }

  /** Every job that is ever called can be called. A plan that is not
      runnable makes the first expansion fail, because calling a missing
      transform, or a crop without its ratios, is an error. */
  predicate Runnable(plan: Plan)
  {
    RunnableFrom(plan, 0)
  }

  /** A level from `k` on that is not runnable makes the plan not runnable
      from `k`. */
  lemma {:induction false} LevelNotRunnable(plan: Plan, k: nat, i: nat)
    requires k <= i < |plan| && !LevelRunnable(plan[i])
    ensures !RunnableFrom(plan, k)
    decreases i - k
  {
    if k < i {
      LevelNotRunnable(plan, k + 1, i);
    }
  }

  /** Levels from `k` on that are each runnable make the plan runnable
      from `k`. */
  lemma {:induction false} LevelsRunnable(plan: Plan, k: nat)
    requires forall i :: k <= i < |plan| ==> LevelRunnable(plan[i])
    ensures RunnableFrom(plan, k)
    decreases |plan| - k
  {
    if k < |plan| {
      LevelsRunnable(plan, k + 1);
    }
  }

  /** The levels from index `lo` up to, not including, `hi` are runnable. */
  predicate RunnableBetween(plan: Plan, lo: nat, hi: nat)
    requires hi <= |plan|
  {
    hi <= lo || (RunnableBetween(plan, lo, hi - 1) && LevelRunnable(plan[hi - 1]))
  }

  lemma {:induction false} RunnableBetweenIndices(plan: Plan, lo: nat, hi: nat)
    requires hi <= |plan|
    ensures RunnableBetween(plan, lo, hi) <==> forall i :: lo <= i < hi ==> LevelRunnable(plan[i])
  {
    if hi > lo {
      RunnableBetweenIndices(plan, lo, hi - 1);
    }
  }

  lemma RunnableBetweenAll(plan: Plan, lo: nat)
    requires RunnableBetween(plan, lo, |plan|)
    ensures RunnableFrom(plan, lo)
  {
    RunnableBetweenIndices(plan, lo, |plan|);
    LevelsRunnable(plan, lo);
  }

  /** `RunnableFrom` says that each level from `k` on is runnable. */
  lemma {:induction false} RunnableFromAll(plan: Plan, k: nat)
    ensures RunnableFrom(plan, k) <==> forall i :: k <= i < |plan| ==> LevelRunnable(plan[i])
    decreases |plan| - k
  {
    if k < |plan| {
      RunnableFromAll(plan, k + 1);
    }
  }

  /** A crop called at least once without one of its ratios makes the
      plan not runnable, although its `func` is recognised. */
  lemma CropWithoutRatiosNotRunnable(times: int, wP: Param, hP: Param)
    requires times > 0 && (wP.None? || hP.None?)
    ensures !Runnable([[ChooseJob(JobConfig("c", times, wP, hP, None, None))]])
  {
    var level := [ChooseJob(JobConfig("c", times, wP, hP, None, None))];
    LevelRunnableIndices(level, 1);
    LevelNotRunnable([level], 0, 0);
  }

  /** A plan built from a configuration is runnable exactly when every
      descriptor with a positive repetition count names a recognised
      `func` and, for a crop, gives both ratios. */
  lemma RunnableIffRecognised(config: seq<seq<JobConfig>>, plan: Plan)
    requires |plan| == |config|
    requires forall i :: 0 <= i < |config| ==> |plan[i]| == |config[i]|
    requires forall i, j :: 0 <= i < |config| && 0 <= j < |config[i]| ==> plan[i][j] == ChooseJob(config[i][j])
    ensures Runnable(plan) <==>
      forall i, j :: 0 <= i < |config| && 0 <= j < |config[i]| && config[i][j].times > 0 ==> Complete(config[i][j])
  {
    RunnableFromAll(plan, 0);
    forall i | 0 <= i < |plan|
      ensures LevelRunnable(plan[i]) <==>
        forall j :: 0 <= j < |config[i]| && config[i][j].times > 0 ==> Complete(config[i][j])
    {
      LevelRunnableIndices(plan[i], |plan[i]|);
      forall j | 0 <= j < |config[i]|
        ensures Callable(plan[i][j]) <==> Complete(config[i][j])
      {
        ChosenCallable(config[i][j]);
      }
    }
  }
}
