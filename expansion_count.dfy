/** What the expansion produces, stated against the plan: the children of
    a node, the lineage of every node, and the number of saves, which is
    the product over the levels of one plus the level's fan-out. */
module ExpansionCount {
  import opened Wrappers
  import opened Paths
  import opened Jobs
  import opened Expansion

  // ---------------------------------------------------------------------
  // Lineage: how a node was obtained from the base node.

  /** The level indices of the transforms that produced `img`, oldest first. */
  function Levels(img: Image): seq<nat>
  {
    match img
    case Transformed(_, level, source, _) => Levels(source) + [level]
    case _ => []
  }

  /** The name suffix the transforms behind `img` add: `_<func>` per job. */
  function Suffix(img: Image): string
  {
    match img
    case Transformed(job, _, source, _) => Suffix(source) + "_" + job.func
    case _ => ""
  }

  /** The image the transforms behind `img` started from. */
  function Origin(img: Image): Image
  {
    match img
    case Transformed(_, _, source, _) => Origin(source)
    case _ => img
  }

  predicate StrictlyIncreasing(s: seq<nat>)
  {
    forall i, j :: 0 <= i < j < |s| ==> s[i] < s[j]
  }

  /** `c` is one child of `n`: produced from `n`'s image by a job of a
      level above `n`'s own, on one of that job's draws, carrying the
      level's index and named after its parent and the job's `func`. */
  predicate IsChild(c: Node, n: Node, plan: Plan)
  {
    && c.image.Transformed?
    && c.image.source == n.image
    && n.jobNumber < c.image.level <= |plan|
    && c.jobNumber == c.image.level
    && c.image.job in plan[c.image.level - 1]
    && c.image.draw < Reps(c.image.job.times)
    && c.name == n.name + "_" + c.image.job.func
  }

  /** A node of the expansion of `base`: it descends from the base image
      through transforms whose levels strictly increase and lie in the plan,
      its `jobNumber` is the last of them (0 for none), and its name is the
      base name followed by one `_<func>` per transform. */
  predicate Descends(n: Node, base: Node, plan: Plan)
  {
    && Origin(n.image) == base.image
    && n.name == base.name + Suffix(n.image)
    && StrictlyIncreasing(Levels(n.image))
    && (forall l :: l in Levels(n.image) ==> 1 <= l <= |plan|)
    && n.jobNumber == (if Levels(n.image) == [] then 0 else Levels(n.image)[|Levels(n.image)| - 1])
  }

  /** The properties of single nodes that the lemmas below establish for
      every node of a sequence. */
  datatype NodeProp =
    | ChildOf(parent: Node, plan: Plan)
    | DescendsFrom(base: Node, plan: Plan, depth: nat)

  predicate Holds(p: NodeProp, c: Node)
  {
    match p
    case ChildOf(parent, plan) => IsChild(c, parent, plan)
    case DescendsFrom(base, plan, depth) => Descends(c, base, plan) && |Levels(c.image)| == depth
  }

  /** Every node of `s` has property `p`. */
  predicate All(s: seq<Node>, p: NodeProp)
  {
    AllUpTo(s, p, |s|)
  }

  /** Each of the first `i` nodes of `s` has property `p`. */
  predicate AllUpTo(s: seq<Node>, p: NodeProp, i: nat)
    requires i <= |s|
  {
    i == 0 || (AllUpTo(s, p, i - 1) && Holds(p, s[i - 1]))
  }

  lemma {:induction false} AllUpToIndices(s: seq<Node>, p: NodeProp, i: nat)
    requires i <= |s|
    ensures AllUpTo(s, p, i) <==> forall k :: 0 <= k < i ==> Holds(p, s[k])
  {
    if i > 0 {
      AllUpToIndices(s, p, i - 1);
    }
  }

  /** `All` holds exactly when `p` holds at every index. */
  lemma AllIndices(s: seq<Node>, p: NodeProp)
    ensures All(s, p) <==> forall k :: 0 <= k < |s| ==> Holds(p, s[k])
  {
    AllUpToIndices(s, p, |s|);
  }

  lemma AllAt(s: seq<Node>, p: NodeProp, i: nat)
    requires All(s, p) && i < |s|
    ensures Holds(p, s[i])
  {
    AllIndices(s, p);
  }

  lemma AllAppend(a: seq<Node>, b: seq<Node>, p: NodeProp)
    requires All(a, p) && All(b, p)
    ensures All(a + b, p)
  {
    AllIndices(a, p);
    AllIndices(b, p);
    AllIndices(a + b, p);
    forall k | 0 <= k < |a + b|
      ensures Holds(p, (a + b)[k])
    {
      if k < |a| {
        assert (a + b)[k] == a[k];
      } else {
        assert (a + b)[k] == b[k - |a|];
      }
    }
  }

  // ---------------------------------------------------------------------
  // Children.

  /** Every draw of a job of level `level` is a child of `n`. */
  lemma DrawsAreChildren(n: Node, plan: Plan, job: Job, level: nat, count: nat)
    requires n.jobNumber < level <= |plan| && job in plan[level - 1] && count <= Reps(job.times)
    ensures All(Draws(n, job, level, count), ChildOf(n, plan))
  {
    AllIndices(Draws(n, job, level, count), ChildOf(n, plan));
    forall d | 0 <= d < count
      ensures Holds(ChildOf(n, plan), Draws(n, job, level, count)[d])
    {
      DrawsAt(n, job, level, count, d);
    }
  }

  /** Every child the jobs of a level give `n` is a child of `n`. */
  lemma {:induction false} LevelChildrenAreChildren(n: Node, plan: Plan, level: nat, j: nat)
    requires n.jobNumber < level <= |plan| && j <= |plan[level - 1]|
    ensures All(LevelChildrenUpTo(n, plan[level - 1], level, j), ChildOf(n, plan))
  {
    if j > 0 {
      var job := plan[level - 1][j - 1];
      LevelChildrenAreChildren(n, plan, level, j - 1);
      DrawsAreChildren(n, plan, job, level, Reps(job.times));
      AllAppend(LevelChildrenUpTo(n, plan[level - 1], level, j - 1), JobChildren(n, job, level), ChildOf(n, plan));
    }
  }

  /** Every element of `SpawnUpTo(n, plan, k)` is a child of `n`. */
  lemma {:induction false} SpawnUpToAreChildren(n: Node, plan: Plan, k: nat)
    requires k <= |plan|
    ensures All(SpawnUpTo(n, plan, k), ChildOf(n, plan))
  {
    if k > 0 {
      SpawnUpToAreChildren(n, plan, k - 1);
      SpawnChildrenStep(n, plan, k);
    }
  }

  lemma SpawnChildrenStep(n: Node, plan: Plan, k: nat)
    requires 0 < k <= |plan| && All(SpawnUpTo(n, plan, k - 1), ChildOf(n, plan))
    ensures All(SpawnUpTo(n, plan, k), ChildOf(n, plan))
  {
    SpawnUpToStep(n, plan, k);
    if n.jobNumber < k {
      LevelChildrenAreChildren(n, plan, k, |plan[k - 1]|);
      AllAppend(SpawnUpTo(n, plan, k - 1), LevelChildren(n, plan[k - 1], k), ChildOf(n, plan));
    }
  }

  /** Every draw of every job of a level is among that level's children. */
  lemma {:induction false} LevelChildrenComplete(n: Node, jobs: seq<Job>, level: nat, j: nat, q: nat, d: nat)
    requires q < j <= |jobs| && d < Reps(jobs[q].times)
    ensures Draw(n, jobs[q], level, d) in LevelChildrenUpTo(n, jobs, level, j)
  {
    if q == j - 1 {
      DrawsAt(n, jobs[q], level, Reps(jobs[q].times), d);
      assert JobChildren(n, jobs[q], level)[d] == Draw(n, jobs[q], level, d);
    } else {
      LevelChildrenComplete(n, jobs, level, j - 1, q, d);
    }
  }

  /** Every draw of every job of a level above `n`'s own and up to `k` is
      an element of `SpawnUpTo(n, plan, k)`. */
  lemma {:induction false} SpawnUpToComplete(n: Node, plan: Plan, k: nat, level: nat, job: Job, d: nat)
    requires k <= |plan|
    requires n.jobNumber < level <= k && job in plan[level - 1] && d < Reps(job.times)
    ensures Draw(n, job, level, d) in SpawnUpTo(n, plan, k)
  {
    if level == k {
      var q :| 0 <= q < |plan[k - 1]| && plan[k - 1][q] == job;
      LevelChildrenComplete(n, plan[k - 1], k, |plan[k - 1]|, q, d);
      SpawnKeepsLevel(n, plan, k, Draw(n, job, level, d));
    } else {
      SpawnUpToComplete(n, plan, k - 1, level, job, d);
      SpawnKeepsBelow(n, plan, k, Draw(n, job, level, d));
    }
  }

  lemma SpawnKeepsLevel(n: Node, plan: Plan, k: nat, c: Node)
    requires n.jobNumber < k <= |plan| && c in LevelChildren(n, plan[k - 1], k)
    ensures c in SpawnUpTo(n, plan, k)
  {
    SpawnUpToStep(n, plan, k);
  }

  lemma SpawnKeepsBelow(n: Node, plan: Plan, k: nat, c: Node)
    requires 0 < k <= |plan| && c in SpawnUpTo(n, plan, k - 1)
    ensures c in SpawnUpTo(n, plan, k)
  {
    SpawnUpToStep(n, plan, k);
  }

  /** The children of `n` are exactly the draws of the jobs of the levels
      above its own: every element of `Spawn(n, plan)` is such a child, and
      every such draw is an element. */
  lemma SpawnIsChildren(n: Node, plan: Plan)
    ensures forall c :: c in Spawn(n, plan) ==> IsChild(c, n, plan)
    ensures forall level, job, d ::
      (n.jobNumber < level <= |plan| && job in plan[level - 1] && 0 <= d < Reps(job.times)) ==>
      Draw(n, job, level, d) in Spawn(n, plan)
  {
    SpawnUpToAreChildren(n, plan, |plan|);
    AllIndices(Spawn(n, plan), ChildOf(n, plan));
    forall level, job, d | n.jobNumber < level <= |plan| && job in plan[level - 1] && 0 <= d < Reps(job.times)
      ensures Draw(n, job, level, d) in Spawn(n, plan)
    {
      SpawnUpToComplete(n, plan, |plan|, level, job, d);
    }
  }

  /** The number of children of `n`: the fan-outs of the levels above
      `k`, summed up to level `m`. */
  function EligibleFanout(plan: Plan, k: nat, m: nat): nat
    requires m <= |plan|
  {
    if m == 0 then 0 else EligibleFanout(plan, k, m - 1) + (if k < m then Fanout(plan[m - 1]) else 0)
  }

  /** Each level above `n`'s own contributes its fan-out, and no other
      level contributes. */
  lemma {:induction false} SpawnUpToSize(n: Node, plan: Plan, m: nat)
    requires m <= |plan|
    ensures |SpawnUpTo(n, plan, m)| == EligibleFanout(plan, n.jobNumber, m)
  {
    if m > 0 {
      SpawnUpToSize(n, plan, m - 1);
      SpawnSizeStep(n, plan, m);
    }
  }

  lemma SpawnSizeStep(n: Node, plan: Plan, m: nat)
    requires 0 < m <= |plan|
    ensures |SpawnUpTo(n, plan, m)| == |SpawnUpTo(n, plan, m - 1)| + (if n.jobNumber < m then Fanout(plan[m - 1]) else 0)
  {
    SpawnUpToStep(n, plan, m);
  }

  // ---------------------------------------------------------------------
  // Every frontier node descends from the base node.

  /** The children of a descendant are descendants with one more transform. */
  lemma ChildDescends(c: Node, n: Node, base: Node, plan: Plan)
    requires Descends(n, base, plan) && IsChild(c, n, plan)
    ensures Descends(c, base, plan) && |Levels(c.image)| == |Levels(n.image)| + 1
  {
    var ls := Levels(n.image);
    assert Levels(c.image) == ls + [c.image.level];
    assert c.name == base.name + (Suffix(n.image) + "_" + c.image.job.func);
    forall i, j | 0 <= i < j < |ls + [c.image.level]|
      ensures (ls + [c.image.level])[i] < (ls + [c.image.level])[j]
    {
      if j < |ls| {
      } else if ls != [] {
        assert ls[i] <= ls[|ls| - 1];
      }
    }
  }

  lemma ChildrenDescend(s: seq<Node>, n: Node, base: Node, plan: Plan, depth: nat)
    requires All(s, ChildOf(n, plan)) && Descends(n, base, plan) && |Levels(n.image)| == depth
    ensures All(s, DescendsFrom(base, plan, depth + 1))
  {
    AllIndices(s, ChildOf(n, plan));
    AllIndices(s, DescendsFrom(base, plan, depth + 1));
    forall k | 0 <= k < |s|
      ensures Holds(DescendsFrom(base, plan, depth + 1), s[k])
    {
      ChildDescends(s[k], n, base, plan);
    }
  }

  lemma NextFrontierDescends(f: seq<Node>, base: Node, plan: Plan, depth: nat)
    requires All(f, DescendsFrom(base, plan, depth))
    ensures All(NextFrontier(f, plan), DescendsFrom(base, plan, depth + 1))
  {
    NextFrontierUpToDescends(f, base, plan, depth, |f|);
  }

  lemma {:induction false} NextFrontierUpToDescends(f: seq<Node>, base: Node, plan: Plan, depth: nat, i: nat)
    requires i <= |f| && All(f, DescendsFrom(base, plan, depth))
    ensures All(NextFrontierUpTo(f, plan, i), DescendsFrom(base, plan, depth + 1))
  {
    if i > 0 {
      NextFrontierUpToDescends(f, base, plan, depth, i - 1);
      AllAt(f, DescendsFrom(base, plan, depth), i - 1);
      NextFrontierDescendsStep(f, base, plan, depth, i);
    }
  }

  lemma NextFrontierDescendsStep(f: seq<Node>, base: Node, plan: Plan, depth: nat, i: nat)
    requires 0 < i <= |f| && Holds(DescendsFrom(base, plan, depth), f[i - 1])
    requires All(NextFrontierUpTo(f, plan, i - 1), DescendsFrom(base, plan, depth + 1))
    ensures All(NextFrontierUpTo(f, plan, i), DescendsFrom(base, plan, depth + 1))
  {
    var n := f[i - 1];
    SpawnUpToAreChildren(n, plan, |plan|);
    ChildrenDescend(Spawn(n, plan), n, base, plan, depth);
    AllAppend(NextFrontierUpTo(f, plan, i - 1), Spawn(n, plan), DescendsFrom(base, plan, depth + 1));
  }

  /** Every node of round `round` descends from the base through exactly
      `round` transforms: the level indices along any lineage strictly
      increase. */
  lemma {:induction false} FrontierDescends(base: Node, plan: Plan, round: nat)
    requires base.jobNumber == 0 && !base.image.Transformed?
    ensures All(Frontier(base, plan, round), DescendsFrom(base, plan, round))
  {
    if round == 0 {
      assert base.name + Suffix(base.image) == base.name;
    } else {
      FrontierDescends(base, plan, round - 1);
      FrontierDescendsStep(base, plan, round);
    }
  }

  lemma FrontierDescendsStep(base: Node, plan: Plan, round: nat)
    requires round > 0 && All(Frontier(base, plan, round - 1), DescendsFrom(base, plan, round - 1))
    ensures All(Frontier(base, plan, round), DescendsFrom(base, plan, round))
  {
    NextFrontierDescends(Frontier(base, plan, round - 1), base, plan, round - 1);
  }

  // ---------------------------------------------------------------------
  // The files saved.

  /** The `j`-th save of a round is the save of the round's `j`-th node. */
  lemma {:induction false} SaveRoundAt(dir: string, f: seq<Node>, i: nat, j: nat)
    requires j < i <= |f|
    ensures SaveRoundUpTo(dir, f, i)[j] == SaveOf(dir, f[j])
  {
    var prev := SaveRoundUpTo(dir, f, i - 1);
    assert SaveRoundUpTo(dir, f, i) == prev + [SaveOf(dir, f[i - 1])];
    if j < i - 1 {
      SaveRoundAt(dir, f, i - 1, j);
      assert (prev + [SaveOf(dir, f[i - 1])])[j] == prev[j];
    }
  }

  /** Every save of the first `rounds` rounds writes a node of the
      expansion of `base`: an image obtained from the base image through
      transforms of strictly increasing levels, recorded with the last of
      those levels and written to `<dir>/<base name><suffix>.jpg`, the
      suffix adding `_<func>` per transform. */
  lemma SavesAreDescendants(dir: string, base: Node, plan: Plan, rounds: nat, i: nat)
    requires base.jobNumber == 0 && !base.image.Transformed?
    requires i < |SavesUpTo(dir, base, plan, rounds)|
    ensures SavedDescendant(dir, base, plan, SavesUpTo(dir, base, plan, rounds)[i])
  {
    var round, j := SaveSource(dir, base, plan, rounds, i);
    SavedFrontierNode(dir, base, plan, round, j);
  }

  /** Save number `i` of the first `rounds` rounds is the save of node `j`
      of the frontier of some earlier round. */
  lemma SaveSource(dir: string, base: Node, plan: Plan, rounds: nat, i: nat)
    returns (round: nat, j: nat)
    requires i < |SavesUpTo(dir, base, plan, rounds)|
    ensures round < rounds && j < |Frontier(base, plan, round)|
    ensures SavesUpTo(dir, base, plan, rounds)[i] == SaveRound(dir, Frontier(base, plan, round))[j]
  {
    round := SaveRoundOf(dir, base, plan, rounds, i);
    j := i - |SavesUpTo(dir, base, plan, round)|;
    var next := SavesOfRound(dir, base, plan, round, i);
    SavesEarlierFixed(dir, base, plan, next, rounds, i);
  }

  /** The round whose saves include save number `i`. */
  lemma {:induction false} SaveRoundOf(dir: string, base: Node, plan: Plan, rounds: nat, i: nat)
    returns (round: nat)
    requires i < |SavesUpTo(dir, base, plan, rounds)|
    ensures round < rounds
    ensures |SavesUpTo(dir, base, plan, round)| <= i < |SavesUpTo(dir, base, plan, round)| + |Frontier(base, plan, round)|
  {
    var last := SavesSplit(dir, base, plan, rounds);
    if i < |SavesUpTo(dir, base, plan, last)| {
      round := SaveRoundOf(dir, base, plan, last, i);
    } else {
      round := last;
    }
  }

  /** The first `rounds` rounds are the first `rounds - 1` and the last. */
  lemma SavesSplit(dir: string, base: Node, plan: Plan, rounds: nat) returns (last: nat)
    requires rounds > 0 || SavesUpTo(dir, base, plan, rounds) != []
    ensures last + 1 == rounds
    ensures SavesUpTo(dir, base, plan, rounds) == SavesUpTo(dir, base, plan, last) + SaveRound(dir, Frontier(base, plan, last))
  {
    last := rounds - 1;
  }

  /** The saves of round `round` follow those of the rounds before it. */
  lemma SavesOfRound(dir: string, base: Node, plan: Plan, round: nat, i: nat) returns (next: nat)
    requires |SavesUpTo(dir, base, plan, round)| <= i < |SavesUpTo(dir, base, plan, round)| + |Frontier(base, plan, round)|
    ensures next == round + 1 && i < |SavesUpTo(dir, base, plan, next)|
    ensures SavesUpTo(dir, base, plan, next)[i] ==
      SaveRound(dir, Frontier(base, plan, round))[i - |SavesUpTo(dir, base, plan, round)|]
  {
    next := round + 1;
    assert SavesUpTo(dir, base, plan, next) == SavesUpTo(dir, base, plan, round) + SaveRound(dir, Frontier(base, plan, round));
  }

  /** Later rounds only append: a save keeps its index. */
  lemma {:induction false} SavesEarlierFixed(dir: string, base: Node, plan: Plan, k: nat, m: nat, i: nat)
    requires k <= m && i < |SavesUpTo(dir, base, plan, k)|
    ensures i < |SavesUpTo(dir, base, plan, m)|
    ensures SavesUpTo(dir, base, plan, m)[i] == SavesUpTo(dir, base, plan, k)[i]
    decreases m
  {
    if k < m {
      var last := SavesSplit(dir, base, plan, m);
      SavesEarlierFixed(dir, base, plan, k, last, i);
    }
  }

  /** `s` writes a node of the expansion of `base` under that node's name. */
  predicate SavedDescendant(dir: string, base: Node, plan: Plan, s: Saved)
  {
    Descends(Node(s.image, base.name + Suffix(s.image), s.level), base, plan) &&
    s.file == Join(dir, base.name + Suffix(s.image) + ".jpg")
  }

  lemma SavedFrontierNode(dir: string, base: Node, plan: Plan, round: nat, j: nat)
    requires base.jobNumber == 0 && !base.image.Transformed?
    requires j < |Frontier(base, plan, round)|
    ensures SavedDescendant(dir, base, plan, SaveRound(dir, Frontier(base, plan, round))[j])
  {
    var f := Frontier(base, plan, round);
    SaveRoundAt(dir, f, |f|, j);
    assert SaveRound(dir, f)[j] == SaveOf(dir, f[j]);
    FrontierDescends(base, plan, round);
    AllAt(f, DescendsFrom(base, plan, round), j);
    SavedNode(dir, base, plan, f[j]);
  }

  lemma SavedNode(dir: string, base: Node, plan: Plan, n: Node)
    requires Descends(n, base, plan)
    ensures SavedDescendant(dir, base, plan, SaveOf(dir, n))
  {
    assert Node(n.image, base.name + Suffix(n.image), n.jobNumber) == n;
  }

  /** The `times` calls of one job on one node are saved under one file
      name, so each save of a later call overwrites the file of the earlier
      one. The calls are different draws (different terms); as pictures
      they differ only for the random transforms, since the flip and the
      grayscale give the same picture on every call. */
  lemma DrawsShareFile(dir: string, n: Node, job: Job, level: nat, d: nat, e: nat)
    requires d != e
    ensures SaveOf(dir, Draw(n, job, level, d)).file == SaveOf(dir, Draw(n, job, level, e)).file
    ensures SaveOf(dir, Draw(n, job, level, d)).image != SaveOf(dir, Draw(n, job, level, e)).image
  {
  }

  /** One level holding one job called once: the base node is saved, then
      its one child, and nothing else. */
  lemma OneJobSaves(dir: string, base: Node, plan: Plan)
    requires base.jobNumber == 0
    requires |plan| == 1 && |plan[0]| == 1 && plan[0][0].times == 1
    ensures AllSaves(dir, base, plan) == [SaveOf(dir, base), SaveOf(dir, Draw(base, plan[0][0], 1, 0))]
  {
    var child := Draw(base, plan[0][0], 1, 0);
    OneJobSpawn(base, plan);
    assert Frontier(base, plan, 1) == [child] by {
      assert NextFrontierUpTo([base], plan, 1) == [] + [child];
    }
    assert Spawn(child, plan) == [];
    assert Frontier(base, plan, 2) == [] by {
      assert NextFrontierUpTo([child], plan, 1) == [];
    }
    assert SaveRound(dir, [base]) == [SaveOf(dir, base)];
    assert SaveRound(dir, [child]) == [SaveOf(dir, child)];
    assert SavesUpTo(dir, base, plan, 1) == [] + SaveRound(dir, [base]);
  }

  lemma OneJobSpawn(base: Node, plan: Plan)
    requires base.jobNumber == 0
    requires |plan| == 1 && |plan[0]| == 1 && plan[0][0].times == 1
    ensures Spawn(base, plan) == [Draw(base, plan[0][0], 1, 0)]
  {
    var child := Draw(base, plan[0][0], 1, 0);
    assert JobChildren(base, plan[0][0], 1) == Draws(base, plan[0][0], 1, 1) == [child];
    assert LevelChildrenUpTo(base, plan[0], 1, 1) == [] + [child];
    assert SpawnUpTo(base, plan, 1) == [] + LevelChildren(base, plan[0], 1);
  }

  /** The base node of a 2000 by 1000 image `a.jpg` with a resize limit
      of 1024: the image is resized and named `a`. */
  lemma ScenarioBase(dir: string)
    ensures BaseNode(dir + "/a.jpg", Size(2000, 1000), 1024) ==
      Node(Resized(Loaded(dir + "/a.jpg", Size(2000, 1000)), 1024), "a", 0)
  {
    BasenameAfterSeparator(dir + "/", "a.jpg");
    assert dir + "/a.jpg" == (dir + "/") + "a.jpg";
    assert UpToFirstDot("a.jpg") == "a" by {
      assert "a.jpg"[1..] == ".jpg";
    }
  }

  /** A 2000 by 1000 image `a.jpg` with a resize limit of 1024 and one
      level holding one flip called once: the resized image is saved as
      `a.jpg` and its flipped copy as `a_h.jpg`, and nothing else. */
  lemma FlipScenario(dir: string, plan: Plan)
    requires |plan| == 1 && |plan[0]| == 1 && plan[0][0].func == "h" && plan[0][0].times == 1
    ensures var resized := Resized(Loaded(dir + "/a.jpg", Size(2000, 1000)), 1024);
      AllSaves(dir, BaseNode(dir + "/a.jpg", Size(2000, 1000), 1024), plan) ==
        [Saved(Join(dir, "a.jpg"), resized, 0),
         Saved(Join(dir, "a_h.jpg"), Transformed(plan[0][0], 1, resized, 0), 1)]
  {
    var base := BaseNode(dir + "/a.jpg", Size(2000, 1000), 1024);
    ScenarioBase(dir);
    OneJobSaves(dir, base, plan);
    assert base.name + ".jpg" == "a.jpg";
    assert Draw(base, plan[0][0], 1, 0).name + ".jpg" == "a_h.jpg";
  }

  // ---------------------------------------------------------------------
  // Counting the saves.

  /** `a * b` as repeated addition, which keeps the counting proofs in
      linear arithmetic. */
  function Times(a: nat, b: nat): nat
  {
    if a == 0 then 0 else b + Times(a - 1, b)
  }

  /** The number of nodes in the subtree of a node of level `k`, the node
      included: the product of `1 + Fanout` over the levels above `k`. */
  function LevelProduct(plan: Plan, k: nat): nat
    decreases |plan| - k
  {
    if k >= |plan| then 1 else Times(1 + Fanout(plan[k]), LevelProduct(plan, k + 1))
  }

  /** The subtree of a node of level `k` is the node itself plus one
      subtree of level `k + 1` per child. */
  lemma LevelProductStep(plan: Plan, k: nat)
    requires k < |plan|
    ensures LevelProduct(plan, k) == LevelProduct(plan, k + 1) + Times(Fanout(plan[k]), LevelProduct(plan, k + 1))
  {
  }

  /** The number of saves a frontier still leads to: the sum of its nodes'
      subtree sizes. */
  function Weight(f: seq<Node>, plan: Plan): nat
  {
    WeightUpTo(f, plan, |f|)
  }

  /** The weight of the first `i` nodes of `f`. */
  function WeightUpTo(f: seq<Node>, plan: Plan, i: nat): nat
    requires i <= |f|
  {
    if i == 0 then 0 else WeightUpTo(f, plan, i - 1) + LevelProduct(plan, f[i - 1].jobNumber)
  }

  lemma {:induction false} WeightUpToAppend(a: seq<Node>, b: seq<Node>, plan: Plan, j: nat)
    requires j <= |b|
    ensures WeightUpTo(a + b, plan, |a| + j) == Weight(a, plan) + WeightUpTo(b, plan, j)
  {
    if j == 0 {
      WeightUpToPrefix(a, a + b, plan, |a|);
    } else {
      WeightUpToAppend(a, b, plan, j - 1);
      assert (a + b)[|a| + j - 1] == b[j - 1];
    }
  }

  /** The weight of a prefix depends only on the prefix. */
  lemma {:induction false} WeightUpToPrefix(a: seq<Node>, f: seq<Node>, plan: Plan, i: nat)
    requires i <= |a| <= |f| && a[..i] == f[..i]
    ensures WeightUpTo(a, plan, i) == WeightUpTo(f, plan, i)
  {
    if i > 0 {
      assert a[..i - 1] == f[..i - 1] && a[i - 1] == a[..i][i - 1] == f[..i][i - 1] == f[i - 1];
      WeightUpToPrefix(a, f, plan, i - 1);
    }
  }

  lemma WeightAppend(a: seq<Node>, b: seq<Node>, plan: Plan)
    ensures Weight(a + b, plan) == Weight(a, plan) + Weight(b, plan)
  {
    WeightUpToAppend(a, b, plan, |b|);
  }

  /** Nodes of one level all weigh that level's subtree size. */
  lemma WeightOfOneLevel(s: seq<Node>, plan: Plan, level: nat)
    requires InLevels(s, level, level)
    ensures Weight(s, plan) == Times(|s|, LevelProduct(plan, level))
  {
    InLevelsIndices(s, level, level);
    WeightUpToOneLevel(s, plan, level, |s|);
  }

  lemma {:induction false} WeightUpToOneLevel(s: seq<Node>, plan: Plan, level: nat, i: nat)
    requires i <= |s| && forall k :: 0 <= k < |s| ==> level <= s[k].jobNumber <= level
    ensures WeightUpTo(s, plan, i) == Times(i, LevelProduct(plan, level))
  {
    if i > 0 {
      WeightUpToOneLevel(s, plan, level, i - 1);
      assert level <= s[i - 1].jobNumber <= level;
    }
  }

  /** Appending one level's children to a sequence adds their weight,
      which is the subtree size one level down minus a single node. */
  lemma WeightOfNextLevel(below: seq<Node>, children: seq<Node>, plan: Plan, m: nat)
    requires 0 < m <= |plan| && |children| == Fanout(plan[m - 1])
    requires InLevels(children, m, m)
    ensures Weight(below + children, plan) + LevelProduct(plan, m) == Weight(below, plan) + LevelProduct(plan, m - 1)
  {
    WeightOfOneLevel(children, plan, m);
    WeightAppend(below, children, plan);
    LevelProductStep(plan, m - 1);
  }

  /** The children of `n` from levels up to `m` weigh the subtree size of
      `n` minus the subtree size of a node of level `m`. */
  lemma {:induction false} SpawnUpToWeight(n: Node, plan: Plan, m: nat)
    requires n.jobNumber <= m <= |plan|
    ensures Weight(SpawnUpTo(n, plan, m), plan) + LevelProduct(plan, m) == LevelProduct(plan, n.jobNumber)
  {
    if m == n.jobNumber {
    } else {
      SpawnUpToWeight(n, plan, m - 1);
      SpawnWeightStep(n, plan, m);
    }
  }

  lemma SpawnWeightStep(n: Node, plan: Plan, m: nat)
    requires n.jobNumber < m <= |plan|
    ensures Weight(SpawnUpTo(n, plan, m), plan) + LevelProduct(plan, m) == Weight(SpawnUpTo(n, plan, m - 1), plan) + LevelProduct(plan, m - 1)
  {
    SpawnUpToStep(n, plan, m);
    LevelChildrenLevel(n, plan[m - 1], m);
    WeightOfNextLevel(SpawnUpTo(n, plan, m - 1), LevelChildren(n, plan[m - 1], m), plan, m);
  }

  /** Expanding a frontier replaces each node by its children, which weigh
      one less than the node: the next frontier weighs `|f|` less. */
  lemma NextFrontierWeight(f: seq<Node>, plan: Plan, lo: nat)
    requires InLevels(f, lo, |plan|)
    ensures Weight(NextFrontier(f, plan), plan) + |f| == Weight(f, plan)
  {
    NextFrontierUpToWeight(f, plan, lo, |f|);
  }

  lemma {:induction false} NextFrontierUpToWeight(f: seq<Node>, plan: Plan, lo: nat, i: nat)
    requires i <= |f| && InLevels(f, lo, |plan|)
    ensures Weight(NextFrontierUpTo(f, plan, i), plan) + i == WeightUpTo(f, plan, i)
  {
    if i > 0 {
      NextFrontierUpToWeight(f, plan, lo, i - 1);
      InLevelsAt(f, lo, |plan|, i - 1);
      NextFrontierWeightStep(f, plan, i);
    }
  }

  lemma NextFrontierWeightStep(f: seq<Node>, plan: Plan, i: nat)
    requires 0 < i <= |f| && f[i - 1].jobNumber <= |plan|
    ensures Weight(NextFrontierUpTo(f, plan, i), plan) + 1 == Weight(NextFrontierUpTo(f, plan, i - 1), plan) + LevelProduct(plan, f[i - 1].jobNumber)
    ensures WeightUpTo(f, plan, i) == WeightUpTo(f, plan, i - 1) + LevelProduct(plan, f[i - 1].jobNumber)
  {
    SpawnUpToWeight(f[i - 1], plan, |plan|);
    WeightAppend(NextFrontierUpTo(f, plan, i - 1), Spawn(f[i - 1], plan), plan);
  }

  /** After any number of rounds, what was saved plus what the frontier
      still leads to is the size of the whole tree. */
  lemma {:induction false} SavesPlusWeight(dir: string, base: Node, plan: Plan, rounds: nat)
    requires base.jobNumber == 0
    ensures |SavesUpTo(dir, base, plan, rounds)| + Weight(Frontier(base, plan, rounds), plan) == LevelProduct(plan, 0)
  {
    if rounds == 0 {
      assert WeightUpTo([base], plan, 1) == WeightUpTo([base], plan, 0) + LevelProduct(plan, 0);
    } else {
      SavesPlusWeight(dir, base, plan, rounds - 1);
      FrontierWeight(base, plan, rounds);
      SavesStep(dir, base, plan, rounds);
    }
  }

  /** A round's frontier weighs its own width more than the next one. */
  lemma FrontierWeight(base: Node, plan: Plan, round: nat)
    requires base.jobNumber == 0 && round > 0
    ensures Weight(Frontier(base, plan, round), plan) + |Frontier(base, plan, round - 1)| == Weight(Frontier(base, plan, round - 1), plan)
  {
    var r: nat := round - 1;
    FrontierLevels(base, plan, r);
    NextFrontierWeight(Frontier(base, plan, r), plan, r);
  }

  /** One round adds one save per frontier node and moves to the next
      frontier. */
  lemma SavesStep(dir: string, base: Node, plan: Plan, rounds: nat)
    requires rounds > 0
    ensures |SavesUpTo(dir, base, plan, rounds)| == |SavesUpTo(dir, base, plan, rounds - 1)| + |Frontier(base, plan, rounds - 1)|
  {
  }

  /** The count formula: the expansion of one image saves the product over
      the levels of `1 + Fanout(level)` images. */
  lemma CountFormula(dir: string, base: Node, plan: Plan)
    requires base.jobNumber == 0
    ensures |AllSaves(dir, base, plan)| == LevelProduct(plan, 0)
  {
    SavesPlusWeight(dir, base, plan, |plan| + 1);
    FrontierEmptyAfterLastLevel(base, plan);
  }

  /** One level with a single job called once, such as one flip: the
      image and its one transformed copy, two saves. */
  lemma OneFlipSavesTwo(dir: string, base: Node, plan: Plan)
    requires base.jobNumber == 0
    requires |plan| == 1 && |plan[0]| == 1 && plan[0][0].times == 1
    ensures |AllSaves(dir, base, plan)| == 2
  {
    CountFormula(dir, base, plan);
    SingleJobProduct(plan, 0);
  }

  /** Two levels of one job each, called twice and three times:
      1 + 2 + 3 + 2 * 3 = 12 saves. */
  lemma TwoLevelsSaveTwelve(dir: string, base: Node, plan: Plan)
    requires base.jobNumber == 0
    requires |plan| == 2 && |plan[0]| == 1 && |plan[1]| == 1
    requires plan[0][0].times == 2 && plan[1][0].times == 3
    ensures |AllSaves(dir, base, plan)| == 12
  {
    CountFormula(dir, base, plan);
    SingleJobProduct(plan, 1);
    SingleJobProduct(plan, 0);
    assert Times(3, 4) == 12;
  }

  /** A level made of one job multiplies the subtree size by one plus that
      job's repetition count. */
  lemma SingleJobProduct(plan: Plan, k: nat)
    requires k < |plan| && |plan[k]| == 1
    ensures LevelProduct(plan, k) == Times(1 + Reps(plan[k][0].times), LevelProduct(plan, k + 1))
  {
    assert Fanout(plan[k]) == FanoutUpTo(plan[k], 0) + Reps(plan[k][0].times);
  }
}
