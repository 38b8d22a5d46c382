/** The progress monitor: it polls the shared counters, keeps the number
    of finished files and an estimate of the time left, and stops once
    every file is finished. The clock and the counters the workers update
    concurrently are inputs: each poll is given the elapsed time and the
    counter values it reads. */
module Progress {
  import opened Dispatch

  /** Hours, minutes and seconds as the progress line shows them. */
  datatype Clock = Clock(hours: int, minutes: int, seconds: int)

  /** `seconds_to_time`: two floored divisions by 60, then the whole part
      of each component. */
  function SecondsToTime(seconds: real): (r: Clock)
    ensures 0 <= r.minutes < 60 && 0 <= r.seconds < 60
    ensures r.hours * 3600 + r.minutes * 60 + r.seconds == seconds.Floor
    ensures seconds >= 0.0 ==> r.hours >= 0
  {
    var totalMinutes := (seconds / 60.0).Floor;
    var rest := seconds - 60.0 * totalMinutes as real;
    Clock(totalMinutes / 60, totalMinutes % 60, rest.Floor)
  }

  /** The number of seconds a clock reading stands for. */
  function TotalSeconds(c: Clock): int
  {
    c.hours * 3600 + c.minutes * 60 + c.seconds
  }

  /** A well-formed clock reading is what its own number of seconds
      converts to. */
  lemma ClockRoundTrip(c: Clock)
    requires 0 <= c.minutes < 60 && 0 <= c.seconds < 60
    ensures SecondsToTime(TotalSeconds(c) as real) == c
  {
    var totalMinutes := c.hours * 60 + c.minutes;
    var seconds := TotalSeconds(c) as real;
    assert seconds == 60.0 * totalMinutes as real + c.seconds as real;
    assert (seconds / 60.0).Floor == totalMinutes by {
      assert seconds / 60.0 == totalMinutes as real + c.seconds as real / 60.0;
    }
    DivModUnique(totalMinutes, 60, c.hours, c.minutes);
  }

  // ---------------------------------------------------------------------
  // The sum of the counters.

  /** The sum of all counter values. */
  function Sum(counts: seq<int>): int
  {
    SumUpTo(counts, |counts|)
  }

  /** The sum of the first `k` counter values. */
  function SumUpTo(counts: seq<int>, k: nat): int
    requires k <= |counts|
  {
    if k == 0 then 0 else SumUpTo(counts, k - 1) + counts[k - 1]
  }

  /** When every worker has counted its whole bucket, the counters add up
      to the number of files dealt. */
  lemma {:induction false} FinishedCountersAddUp(buckets: seq<seq<Entry>>, counts: seq<int>, k: nat)
    requires |counts| == |buckets| && k <= |buckets|
    requires forall b :: 0 <= b < |buckets| ==> counts[b] == |buckets[b]|
    ensures SumUpTo(counts, k) == |FlattenUpTo(buckets, k)|
  {
    if k > 0 {
      FinishedCountersAddUp(buckets, counts, k - 1);
    }
  }

  /** While no counter runs past its bucket, the counters add up to at
      most the number of files, and to fewer as long as one worker has not
      counted its whole bucket. */
  lemma {:induction false} CountersBelowFiles(buckets: seq<seq<Entry>>, counts: seq<int>, k: nat)
    requires |counts| == |buckets| && k <= |buckets|
    requires forall b :: 0 <= b < |buckets| ==> counts[b] <= |buckets[b]|
    ensures SumUpTo(counts, k) <= |FlattenUpTo(buckets, k)|
    ensures (exists b :: 0 <= b < k && counts[b] < |buckets[b]|) ==> SumUpTo(counts, k) < |FlattenUpTo(buckets, k)|
  {
    if k > 0 {
      CountersBelowFiles(buckets, counts, k - 1);
    }
  }

  /** A worker that stopped before the end of its bucket keeps the sum of
      the counters below the number of files for good, so the monitor,
      which polls until the sum reaches that number, never stops. */
  lemma StalledWorkerHangsMonitor(s: PollState, walk: seq<WalkStep>, multiProcess: nat,
                                  samples: seq<Sample>, stalled: nat, k: nat)
    requires multiProcess > 0 && 0 <= s.finishNumber < |Enumerate(walk)|
    requires stalled < multiProcess && k <= |samples|
    requires forall j :: 0 <= j < |samples| ==> |samples[j].counts| == multiProcess
    requires forall j, b :: 0 <= j < |samples| && 0 <= b < multiProcess ==>
      samples[j].counts[b] <= |Deal(Enumerate(walk), multiProcess)[b]|
    requires forall j :: 0 <= j < |samples| ==>
      samples[j].counts[stalled] < |Deal(Enumerate(walk), multiProcess)[stalled]|
    ensures Polls(s, samples, |Enumerate(walk)|, k).finishNumber < |Enumerate(walk)|
  {
    var buckets := Deal(Enumerate(walk), multiProcess);
    FileNumberCountsFiles(walk, multiProcess);
    forall j | 0 <= j < |samples|
      ensures Sum(samples[j].counts) < |Enumerate(walk)|
    {
      CountersBelowFiles(buckets, samples[j].counts, multiProcess);
    }
    StalledPollsNeverFinish(s, samples, |Enumerate(walk)|, k);
  }

  /** One finished file more in any worker's counter raises the sum by
      one. */
  lemma {:induction false} SumIncrement(counts: seq<int>, b: nat, k: nat)
    requires b < |counts| && k <= |counts|
    ensures SumUpTo(counts[b := counts[b] + 1], k) == SumUpTo(counts, k) + (if b < k then 1 else 0)
  {
    if k > 0 {
      SumIncrement(counts, b, k - 1);
    }
  }

  // ---------------------------------------------------------------------
  // One poll.

  /** What the monitor remembers between polls. */
  datatype PollState = PollState(finishNumber: int, etaTime: real, costTime: real)

  /** The state before the first poll. */
  const Start := PollState(0, 0.0, 0.0)

  /** A negative estimate is shown as zero. */
  function Clamp(eta: real): (r: real)
    ensures r >= 0.0 && (eta >= 0.0 ==> r == eta)
  {
    if eta < 0.0 then 0.0 else eta
  }

  /** One pass of the monitor's loop, given the elapsed time and the sum of
      the counters it reads. The finished count only grows; while it does
      not move the estimate runs down by the time since the last poll, and
      when it grows the estimate is the average time per finished file
      times the files left. */
  function PollStep(s: PollState, newCostTime: real, newFinishNumber: int, fileNumber: int): (r: PollState)
    requires s.finishNumber >= 0
    ensures r.finishNumber >= s.finishNumber && r.finishNumber >= newFinishNumber
    ensures r.finishNumber == s.finishNumber || r.finishNumber == newFinishNumber
    ensures r.costTime == newCostTime
    ensures r.etaTime >= 0.0
  {
    var eta := if newFinishNumber == s.finishNumber then s.etaTime - (newCostTime - s.costTime) else s.etaTime;
    if newFinishNumber > s.finishNumber then
      PollState(newFinishNumber, Clamp(newCostTime / newFinishNumber as real * (fileNumber - newFinishNumber) as real), newCostTime)
    else
      PollState(s.finishNumber, Clamp(eta), newCostTime)
  }

  /** The three ways a poll updates the estimate: run down by the elapsed
      gap when the count did not move, recomputed from the average when it
      grew (the division is by a positive count), kept when the sum read is
      below the count already seen. */
  lemma PollEta(s: PollState, newCostTime: real, newFinishNumber: int, fileNumber: int)
    requires s.finishNumber >= 0
    ensures var r := PollStep(s, newCostTime, newFinishNumber, fileNumber);
      (newFinishNumber == s.finishNumber ==> r.etaTime == Clamp(s.etaTime - (newCostTime - s.costTime))) &&
      (newFinishNumber > s.finishNumber ==>
         (newFinishNumber > 0 &&
          r.etaTime == Clamp(newCostTime / newFinishNumber as real * (fileNumber - newFinishNumber) as real))) &&
      (newFinishNumber < s.finishNumber ==> r.etaTime == Clamp(s.etaTime))
  {
  }

  /** A poll that sees every file finished estimates no time left, as long
      as the elapsed time is not negative. */
  lemma PollDone(s: PollState, newCostTime: real, newFinishNumber: int, fileNumber: int)
    requires s.finishNumber >= 0 && newCostTime >= 0.0
    requires newFinishNumber > s.finishNumber && newFinishNumber >= fileNumber
    ensures PollStep(s, newCostTime, newFinishNumber, fileNumber).etaTime == 0.0
    ensures PollStep(s, newCostTime, newFinishNumber, fileNumber).finishNumber >= fileNumber
  {
    var perFile := newCostTime / newFinishNumber as real;
    assert perFile >= 0.0;
    NonPositiveProduct(perFile, (fileNumber - newFinishNumber) as real);
  }

  lemma NonPositiveProduct(x: real, y: real)
    requires x >= 0.0 && y <= 0.0
    ensures x * y <= 0.0
  {
  }

  // ---------------------------------------------------------------------
  // The polling loop.

  /** What the monitor reads at one poll: the elapsed time and the values
      of the shared counters. */
  datatype Sample = Sample(elapsed: real, counts: seq<int>)

  /** The state after the first `k` polls. */
  function Polls(s: PollState, samples: seq<Sample>, fileNumber: int, k: nat): (r: PollState)
    requires s.finishNumber >= 0 && k <= |samples|
    ensures r.finishNumber >= s.finishNumber
  {
    if k == 0 then s
    else PollStep(Polls(s, samples, fileNumber, k - 1), samples[k - 1].elapsed, Sum(samples[k - 1].counts), fileNumber)
  }

  /** The finished count never decreases from one poll to a later one. */
  lemma {:induction false} PollsMonotone(s: PollState, samples: seq<Sample>, fileNumber: int, j: nat, k: nat)
    requires s.finishNumber >= 0 && j <= k <= |samples|
    ensures Polls(s, samples, fileNumber, j).finishNumber <= Polls(s, samples, fileNumber, k).finishNumber
    decreases k
  {
    if j < k {
      PollsMonotone(s, samples, fileNumber, j, k - 1);
    }
  }

  /** The finished count after some polls is at least every counter sum
      read so far. */
  lemma {:induction false} PollsSeeLargestSum(s: PollState, samples: seq<Sample>, fileNumber: int, j: nat, k: nat)
    requires s.finishNumber >= 0 && j < k <= |samples|
    ensures Polls(s, samples, fileNumber, k).finishNumber >= Sum(samples[j].counts)
    decreases k
  {
    if j < k - 1 {
      PollsSeeLargestSum(s, samples, fileNumber, j, k - 1);
    }
  }

  /** The finished count after some polls is the starting count or one of
      the counter sums read; with `PollsSeeLargestSum` and the bound of
      `Polls`, it is the largest of them. */
  lemma {:induction false} PollsAttainLargest(s: PollState, samples: seq<Sample>, fileNumber: int, k: nat)
    requires s.finishNumber >= 0 && k <= |samples|
    ensures var n := Polls(s, samples, fileNumber, k).finishNumber;
      n == s.finishNumber || exists j :: 0 <= j < k && n == Sum(samples[j].counts)
  {
    if k > 0 {
      PollsAttainLargest(s, samples, fileNumber, k - 1);
    }
  }

  /** If every counter sum read stays below the number of files, as when a
      worker has stopped on an error, no number of polls brings the
      finished count to the number of files. */
  lemma {:induction false} StalledPollsNeverFinish(s: PollState, samples: seq<Sample>, fileNumber: int, k: nat)
    requires 0 <= s.finishNumber < fileNumber && k <= |samples|
    requires forall j :: 0 <= j < |samples| ==> Sum(samples[j].counts) < fileNumber
    ensures Polls(s, samples, fileNumber, k).finishNumber < fileNumber
  {
    if k > 0 {
      StalledPollsNeverFinish(s, samples, fileNumber, k - 1);
    }
  }

  /** The first poll after every worker has finished its bucket reaches the
      number of files, so the monitor stops. */
  lemma AllDoneStopsMonitor(s: PollState, elapsed: real, walk: seq<WalkStep>, multiProcess: nat, counts: seq<int>)
    requires multiProcess > 0 && 0 <= s.finishNumber
    requires |counts| == multiProcess
    requires forall b :: 0 <= b < multiProcess ==> counts[b] == |Deal(Enumerate(walk), multiProcess)[b]|
    ensures Sum(counts) == |Enumerate(walk)|
    ensures PollStep(s, elapsed, Sum(counts), |Enumerate(walk)|).finishNumber >= |Enumerate(walk)|
  {
    var buckets := Deal(Enumerate(walk), multiProcess);
    FinishedCountersAddUp(buckets, counts, multiProcess);
    FileNumberCountsFiles(walk, multiProcess);
  }

  /** `process_info`, with the clock and the shared counters as inputs. */
  class ProgressMonitor {
    const fileNumber: int
    const multiProcess: nat
    var finishNumber: int
    var etaTime: real
    var costTime: real

    /** The remembered state as a value. */
    function State(): PollState
      reads this
    {
      PollState(finishNumber, etaTime, costTime)
    }

    /** Nothing finished, no time spent, no estimate yet. */
    constructor (fileNumber: int, multiProcess: nat)
      ensures this.fileNumber == fileNumber && this.multiProcess == multiProcess
      ensures State() == Start
    {
      this.fileNumber := fileNumber;
      this.multiProcess := multiProcess;
      finishNumber, etaTime, costTime := 0, 0.0, 0.0;
    }

    /** One pass of the loop: the counters of the workers added up, then
        the state updated as `PollStep` says. */
    method Poll(newCostTime: real, counts: seq<int>)
      requires |counts| == multiProcess && finishNumber >= 0
      modifies this
      ensures State() == PollStep(old(State()), newCostTime, Sum(counts), fileNumber)
    {
      var newFinishNumber := 0;
      for processN := 0 to multiProcess
        invariant newFinishNumber == SumUpTo(counts, processN)
      {
        newFinishNumber := newFinishNumber + counts[processN];
      }
      if newFinishNumber == finishNumber {
        etaTime := etaTime - (newCostTime - costTime);
      }
      costTime := newCostTime;
      if newFinishNumber > finishNumber {
        finishNumber := newFinishNumber;
        var etaNumber := fileNumber - finishNumber;
        etaTime := costTime / finishNumber as real * etaNumber as real;
      }
      if etaTime < 0.0 {
        etaTime := 0.0;
      }
    }

    /** The loop: poll while fewer files are finished than there are, one
        sample per pass, until the samples run out. It stops at the first
        poll that sees every file finished. */
    method Run(samples: seq<Sample>) returns (polls: nat)
      requires finishNumber >= 0
      requires forall k :: 0 <= k < |samples| ==> |samples[k].counts| == multiProcess
      modifies this
      ensures polls <= |samples|
      ensures State() == Polls(old(State()), samples, fileNumber, polls)
      ensures polls < |samples| ==> finishNumber >= fileNumber
      ensures forall k :: 0 <= k < polls ==> Polls(old(State()), samples, fileNumber, k).finishNumber < fileNumber
    {
      polls := 0;
      while finishNumber < fileNumber && polls < |samples|
        invariant polls <= |samples| && finishNumber >= old(finishNumber) >= 0
        invariant State() == Polls(old(State()), samples, fileNumber, polls)
        invariant forall k :: 0 <= k < polls ==> Polls(old(State()), samples, fileNumber, k).finishNumber < fileNumber
        decreases |samples| - polls
      {
        Poll(samples[polls].elapsed, samples[polls].counts);
        polls := polls + 1;
      }
    }
  }
}
