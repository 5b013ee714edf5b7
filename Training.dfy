/**
 * The training helpers of wicked_zerg_challenger/tools/training_improvements.py:
 * the two-state adaptive difficulty, the bounded history of game times and
 * its statistics, the per-key error counter with capped exponential backoff,
 * and the checkpoint schedule.
 *
 * Game times and win rates are Python floats; they are modelled as exact
 * reals.
 */
module Training {
  import opened Wrappers
  import opened SeqUtil
  import opened PyText

  /** The `TrainingMetrics` record. */
  datatype TrainingMetrics = TrainingMetrics(
    totalGames: int,
    wins: int,
    losses: int,
    winRate: real,
    avgGameTime: real,
    consecutiveWins: int,
    consecutiveLosses: int,
    totalTrainingTime: real,
    errors: int,
    lastUpdated: real)

  // ---------------------------------------------------------------------
  // Adaptive difficulty

  /** The two difficulty strings the manager ever holds. */
  datatype Difficulty = Hard | VeryHard

  const MinGamesForChange := 10
  const IncreaseThreshold: real := 0.7
  const DecreaseThreshold: real := 0.4

  /**
   * The difficulty after one `update`: no change before ten games; Hard
   * rises exactly when the win rate reaches 0.7, VeryHard falls exactly when
   * it drops to 0.4.
   */
  function NextDifficulty(current: Difficulty, totalGames: int, winRate: real): (next: Difficulty)
    ensures totalGames < MinGamesForChange ==> next == current
    ensures current == Hard ==> (next == VeryHard <==> totalGames >= 10 && winRate >= 0.7)
    ensures current == VeryHard ==> (next == Hard <==> totalGames >= 10 && winRate <= 0.4)
  {
    if totalGames < MinGamesForChange then current
    else if winRate >= IncreaseThreshold then (if current == Hard then VeryHard else current)
    else if winRate <= DecreaseThreshold then (if current == VeryHard then Hard else current)
    else current
  }

  /** The difficulty after a whole sequence of updates, oldest first. */
  function DifficultyAfter(start: Difficulty, history: seq<TrainingMetrics>): Difficulty {
    if |history| == 0 then start
    else NextDifficulty(DifficultyAfter(start, history[..|history| - 1]),
                        history[|history| - 1].totalGames, history[|history| - 1].winRate)
  }

  /**
   * Between the two thresholds nothing moves, whatever the history: a run of
   * such updates leaves the difficulty where it started.
   */
  lemma {:induction false} MiddleBandIsStable(start: Difficulty, history: seq<TrainingMetrics>)
    requires forall i :: 0 <= i < |history| ==> 0.4 < history[i].winRate < 0.7
    ensures DifficultyAfter(start, history) == start
  {
    if |history| > 0 {
      MiddleBandIsStable(start, history[..|history| - 1]);
    }
  }

  /** Fewer than ten games recorded in every update: the difficulty never changes. */
  lemma {:induction false} TooFewGamesIsStable(start: Difficulty, history: seq<TrainingMetrics>)
    requires forall i :: 0 <= i < |history| ==> history[i].totalGames < 10
    ensures DifficultyAfter(start, history) == start
  {
    if |history| > 0 {
      TooFewGamesIsStable(start, history[..|history| - 1]);
    }
  }

  class AdaptiveDifficultyManager {
    const baseDifficulty: Difficulty
    var currentDifficulty: Difficulty

    constructor ()
      ensures baseDifficulty == Hard && currentDifficulty == Hard
    {
      baseDifficulty := Hard;
      currentDifficulty := Hard;
    }

    /** `update`: one step of the two-state machine; returns the new difficulty. */
    method Update(metrics: TrainingMetrics) returns (d: Difficulty)
      modifies this
      ensures currentDifficulty == NextDifficulty(old(currentDifficulty), metrics.totalGames, metrics.winRate)
      ensures d == currentDifficulty
    {
      if metrics.totalGames < MinGamesForChange {
        return currentDifficulty;
      }
      if metrics.winRate >= IncreaseThreshold {
        if currentDifficulty == Hard {
          currentDifficulty := VeryHard;
        }
      } else if metrics.winRate <= DecreaseThreshold {
        if currentDifficulty == VeryHard {
          currentDifficulty := Hard;
        }
      }
      d := currentDifficulty;
    }
  }

  // ---------------------------------------------------------------------
  // Game-time history

  const MaxGameTimeHistory := 100

  function Sum(s: seq<real>): real {
    if |s| == 0 then 0.0 else s[0] + Sum(s[1..])
  }

  /** Python's `min` of a non-empty list. */
  function MinOf(s: seq<real>): (m: real)
    requires |s| > 0
    ensures m in s
    ensures forall i :: 0 <= i < |s| ==> m <= s[i]
  {
    if |s| == 1 then s[0]
    else var t := MinOf(s[1..]); if s[0] <= t then s[0] else t
  }

  /** Python's `max` of a non-empty list. */
  function MaxOf(s: seq<real>): (m: real)
    requires |s| > 0
    ensures m in s
    ensures forall i :: 0 <= i < |s| ==> s[i] <= m
  {
    if |s| == 1 then s[0]
    else var t := MaxOf(s[1..]); if s[0] >= t then s[0] else t
  }

  /** The sum of `n` values lies between `n` times their least and `n` times their greatest. */
  lemma {:induction false} SumBetween(s: seq<real>, lo: real, hi: real)
    requires forall i :: 0 <= i < |s| ==> lo <= s[i] <= hi
    ensures (|s| as real) * lo <= Sum(s) <= (|s| as real) * hi
  {
    if |s| > 0 {
      SumBetween(s[1..], lo, hi);
      assert (|s| as real) * lo == lo + ((|s| - 1) as real) * lo;
      assert (|s| as real) * hi == hi + ((|s| - 1) as real) * hi;
    }
  }

  /** The mean of a non-empty list lies between two bounds of its elements. */
  lemma MeanBetween(s: seq<real>, lo: real, hi: real)
    requires |s| > 0
    requires forall i :: 0 <= i < |s| ==> lo <= s[i] <= hi
    ensures lo <= Sum(s) / (|s| as real) <= hi
  {
    SumBetween(s, lo, hi);
    var n := |s| as real;
    assert n * (Sum(s) / n) == Sum(s);
  }

  /** A quotient times its positive divisor gives back the dividend. */
  lemma QuotientScales(x: real, n: real, q: real)
    requires n > 0.0 && q == x / n
    ensures q * n == x
  {
  }

  /** `get_stats`' dictionary; `recentAvg` is absent from the empty-history answer. */
  datatype GameStats = GameStats(avgTime: real, minTime: real, maxTime: real, recentAvg: Option<real>)

  /** `get_stats` on the history `times`. */
  function StatsOf(times: seq<real>): (s: GameStats)
    ensures |times| == 0 ==> s == GameStats(0.0, 0.0, 0.0, None)
    ensures |times| > 0 ==> s.minTime in times && s.maxTime in times
    ensures |times| > 0 ==> forall i :: 0 <= i < |times| ==> s.minTime <= times[i] <= s.maxTime
    ensures |times| > 0 ==> s.minTime <= s.avgTime <= s.maxTime
    ensures |times| > 0 ==> s.recentAvg.Some? && s.minTime <= s.recentAvg.value <= s.maxTime
  {
    if |times| == 0 then GameStats(0.0, 0.0, 0.0, None)
    else
      var lo, hi := MinOf(times), MaxOf(times);
      var recent := Last(times, 10);
      MeanBetween(times, lo, hi);
      MeanBetween(recent, lo, hi);
      GameStats(Sum(times) / (|times| as real), lo, hi,
                Some(Sum(recent) / (Min(10, |times|) as real)))
  }

  /** `a` is the mean of the non-empty `s`: `a` times the count is the sum. */
  predicate IsMeanOf(a: real, s: seq<real>) {
    |s| > 0 && a * (|s| as real) == Sum(s)
  }

  /** `sum(s) / len(s)` is the mean of `s`. */
  lemma QuotientIsMean(s: seq<real>)
    requires |s| > 0
    ensures IsMeanOf(Sum(s) / (|s| as real), s)
  {
    QuotientScales(Sum(s), |s| as real, Sum(s) / (|s| as real));
  }

  /** `avg_time` is the mean of the whole history. */
  lemma AverageIsMean(times: seq<real>)
    requires |times| > 0
    ensures IsMeanOf(StatsOf(times).avgTime, times)
  {
    QuotientIsMean(times);
  }

  /** `recent_avg` is the mean of the last ten times, or of all of them when fewer. */
  lemma RecentAverageIsMean(times: seq<real>)
    requires |times| > 0
    ensures StatsOf(times).recentAvg.Some? && IsMeanOf(StatsOf(times).recentAvg.value, Last(times, 10))
  {
    QuotientIsMean(Last(times, 10));
  }

  /** The window `record_game` keeps after one append: the oldest entry goes once over 100. */
  lemma LastAppend(s: seq<real>, t: real)
    ensures var w := Last(s, MaxGameTimeHistory) + [t];
      Last(s + [t], MaxGameTimeHistory) == if |w| > MaxGameTimeHistory then w[1..] else w
  {
  }

  class TrainingPerformanceMonitor {
    var gameTimes: seq<real>
    /** Every game time ever recorded, oldest first. */
    ghost var recorded: seq<real>

    /** The history is the most recent (at most) 100 recorded times, in arrival order. */
    ghost predicate Valid()
      reads this
    {
      gameTimes == Last(recorded, MaxGameTimeHistory)
    }

    constructor ()
      ensures Valid() && recorded == [] && gameTimes == []
    {
      gameTimes := [];
      recorded := [];
    }

    /** `record_game`: append, then drop the oldest entry when over 100. */
    method RecordGame(gameTime: real)
      requires Valid()
      modifies this
      ensures Valid()
      ensures recorded == old(recorded) + [gameTime]
      ensures |gameTimes| <= MaxGameTimeHistory
      ensures gameTimes[|gameTimes| - 1] == gameTime
    {
      LastAppend(recorded, gameTime);
      recorded := recorded + [gameTime];
      gameTimes := gameTimes + [gameTime];
      if |gameTimes| > MaxGameTimeHistory {
        gameTimes := gameTimes[1..];
      }
    }

    /** `get_stats` on the current history. */
    function GetStats(): (s: GameStats)
      reads this
      ensures s == StatsOf(gameTimes)
    {
      StatsOf(gameTimes)
    }
  }

  // ---------------------------------------------------------------------
  // Error counting with backoff

  const MaxRetries := 5
  const BackoffFactor: real := 2.0

  function Pow(base: real, n: nat): real {
    if n == 0 then 1.0 else base * Pow(base, n - 1)
  }

  /** `(should_continue, wait_time)` for the `count`-th error on a key. */
  function Backoff(count: nat): (r: (bool, real))
    ensures count > MaxRetries ==> r == (false, 0.0)
    ensures count <= MaxRetries ==> r.0 && 0.0 < r.1 <= 30.0
  {
    if count > MaxRetries then (false, 0.0)
    else
      var w := Pow(BackoffFactor, count);
      PowAtLeastOne(count);
      (true, if w <= 30.0 then w else 30.0)
  }

  lemma {:induction false} PowAtLeastOne(n: nat)
    ensures Pow(BackoffFactor, n) >= 1.0
  {
    if n > 0 {
      PowAtLeastOne(n - 1);
    }
  }

  /** The waits of the five allowed retries are 2, 4, 8, 16 and then capped at 30 seconds. */
  lemma BackoffSchedule()
    ensures Backoff(1) == (true, 2.0) && Backoff(2) == (true, 4.0) && Backoff(3) == (true, 8.0)
    ensures Backoff(4) == (true, 16.0) && Backoff(5) == (true, 30.0) && Backoff(6) == (false, 0.0)
  {
    assert Pow(2.0, 5) == 32.0;
  }

  /** The counter key `f"{error_type}:{context}"`. */
  function ErrorKey(errorType: string, context: string): string {
    errorType + ":" + context
  }

  /** `self.error_counts.get(key, 0)`. */
  function CountOf(counts: map<string, nat>, key: string): nat {
    if key in counts then counts[key] else 0
  }

  /** The table `reset_error_count(context)` leaves: the keys not containing `context`. */
  function Kept(counts: map<string, nat>, context: string): (r: map<string, nat>)
    ensures forall k :: k in r <==> k in counts && !Contains(k, context)
    ensures forall k :: k in r ==> r[k] == counts[k]
  {
    map k | k in counts && !Contains(k, context) :: counts[k]
  }

  /** Every string contains the empty one, so resetting with no context clears the table. */
  lemma EmptyContextClearsAll(counts: map<string, nat>)
    ensures Kept(counts, "") == map[]
  {
    forall k | k in counts
      ensures Contains(k, "")
    {
      EmptyContained(k);
    }
  }

  class TrainingErrorHandler {
    var errorCounts: map<string, nat>

    constructor ()
      ensures errorCounts == map[]
    {
      errorCounts := map[];
    }

    /**
     * `handle_error`: counts one more error under "type:context" and answers
     * whether to go on and how long to wait. `errorType` is the exception's
     * class name.
     */
    method HandleError(errorType: string, context: string) returns (shouldContinue: bool, waitTime: real)
      modifies this
      ensures var key := ErrorKey(errorType, context);
        errorCounts == old(errorCounts)[key := CountOf(old(errorCounts), key) + 1]
      ensures (shouldContinue, waitTime) == Backoff(errorCounts[ErrorKey(errorType, context)])
    {
      var key := ErrorKey(errorType, context);
      errorCounts := errorCounts[key := CountOf(errorCounts, key) + 1];
      var count := errorCounts[key];
      shouldContinue, waitTime := Backoff(count).0, Backoff(count).1;
    }

    /** `reset_error_count`: deletes, one by one, every key containing `context`. */
    method ResetErrorCount(context: string)
      modifies this
      ensures errorCounts == Kept(old(errorCounts), context)
    {
      var keysToRemove := set k | k in errorCounts && Contains(k, context);
      while keysToRemove != {}
        invariant keysToRemove <= errorCounts.Keys
        invariant forall k :: k in keysToRemove ==> Contains(k, context)
        invariant forall k :: k in errorCounts <==>
          k in old(errorCounts) && (k in keysToRemove || !Contains(k, context))
        invariant forall k :: k in errorCounts ==> errorCounts[k] == old(errorCounts)[k]
        decreases |keysToRemove|
      {
        var key :| key in keysToRemove;
        errorCounts := errorCounts - {key};
        keysToRemove := keysToRemove - {key};
      }
      assert errorCounts.Keys == Kept(old(errorCounts), context).Keys;
    }
  }

  // ---------------------------------------------------------------------
  // Checkpoints

  const CheckpointInterval := 10

  /** `should_save_checkpoint`: every tenth game count (Python's `%` agrees with Dafny's for a positive divisor). */
  function ShouldSaveCheckpoint(gameCount: int): (save: bool) {
    gameCount % CheckpointInterval == 0
  }

  /** Among any ten consecutive game counts exactly one is a checkpoint. */
  lemma OneCheckpointPerTen(n: int)
    ensures var c := n + (10 - n % 10) % 10;
      n <= c < n + 10 && ShouldSaveCheckpoint(c)
      && forall k :: n <= k < n + 10 && ShouldSaveCheckpoint(k) ==> k == c
  {
    var q, r := n / 10, n % 10;
    assert n == 10 * q + r && 0 <= r < 10;
    var c := n + (10 - r) % 10;
    assert c == if r == 0 then 10 * q else 10 * (q + 1);
    forall k | n <= k < n + 10 && ShouldSaveCheckpoint(k)
      ensures k == c
    {
      var m := k / 10;
      assert k == 10 * m;
    }
  }
}
