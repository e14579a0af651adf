/** The lane runner's mutable state and the handlers that change it
    (projects/mistakerunner/game.js).  The three global records of the game
    become three classes; the free functions that mutate them become methods
    taking the records they touch.  `now` stands for Date.now() and every
    Math.random() draw is a real parameter in [0, 1). */
module MistakeRunner {
  import opened RunnerRules

  datatype Direction = Left | Right

  /** learningModel.consecutiveLaneTime: the lane the player holds and for how many ticks. */
  datatype LaneTime = LaneTime(lane: nat, time: nat)

  /** An entry of learningModel.recentObstacles; `id` is the spawn time, as in the source. */
  datatype ObstacleRecord = ObstacleRecord(lane: nat, kind: Kind, spawnTime: int, id: int)

  /** The random draws one tick may consume. */
  datatype TickDraws = TickDraws(eventKind: real, eventThreshold: real, lane: real, kind: real)

  predicate IsDraw(r: real) { 0.0 <= r < 1.0 }

  predicate ValidDraws(d: TickDraws)
  {
    IsDraw(d.eventKind) && IsDraw(d.eventThreshold) && IsDraw(d.lane) && IsDraw(d.kind)
  }

  /** The run state (gameState). */
  class GameState {
    var running: bool
    var score: nat
    var speed: real
    var currentLane: nat
    var obstacles: seq<Obstacle>
    var lastSpawnTime: int
    var lastObstacleY: real

    ghost predicate Valid()
      reads this`currentLane, this`speed, this`obstacles
    {
      currentLane < LaneCount && speed >= 1.0 &&
      forall i :: 0 <= i < |obstacles| ==> obstacles[i].lane < LaneCount
    }

    constructor ()
      ensures Valid()
      ensures !running && score == 0 && speed == 1.0 && currentLane == 1
      ensures obstacles == [] && lastSpawnTime == 0 && lastObstacleY == -200.0
    {
      running, score, speed, currentLane := false, 0, 1.0, 1;
      obstacles, lastSpawnTime, lastObstacleY := [], 0, -200.0;
    }
  }

  /** The heuristic tracker (learningModel); it survives restarts. */
  class LearningModel {
    var totalMistakes: nat
    var lanePreferences: seq<nat>
    var laneCollisions: seq<real>
    var consecutiveLaneTime: LaneTime
    var delayedSwitches: int
    var lastLaneChange: int
    var preferredLane: int
    var recentObstacles: seq<ObstacleRecord>
    var mistakeRollingAverage: real
    var mistakeSampleCount: nat
    var laneCollisionRollingSums: seq<nat>
    var laneCollisionSampleCounts: seq<nat>

    ghost predicate Valid()
      reads this
    {
      |lanePreferences| == LaneCount && |laneCollisions| == LaneCount &&
      |laneCollisionRollingSums| == LaneCount && |laneCollisionSampleCounts| == LaneCount &&
      consecutiveLaneTime.lane < LaneCount &&
      delayedSwitches >= 0 &&
      -1 <= preferredLane < LaneCount as int &&
      |recentObstacles| <= 10 &&
      mistakeSampleCount <= MaxSamples &&
      laneCollisionSampleCounts[0] <= MaxSamples && laneCollisionSampleCounts[1] <= MaxSamples &&
      laneCollisionSampleCounts[2] <= MaxSamples &&
      laneCollisions[0] >= 0.0 && laneCollisions[1] >= 0.0 && laneCollisions[2] >= 0.0
    }

    /** The record as initialised at page load; `now` is the load time. */
    constructor (now: int)
      ensures Valid()
      ensures totalMistakes == 0 && lanePreferences == [0, 0, 0] && laneCollisions == [0.0, 0.0, 0.0]
      ensures consecutiveLaneTime == LaneTime(1, 0) && delayedSwitches == 0 && lastLaneChange == now
      ensures preferredLane == -1 && recentObstacles == []
      ensures mistakeRollingAverage == 0.0 && mistakeSampleCount == 0
      ensures laneCollisionRollingSums == [0, 0, 0] && laneCollisionSampleCounts == [0, 0, 0]
    {
      totalMistakes, lanePreferences, laneCollisions := 0, [0, 0, 0], [0.0, 0.0, 0.0];
      consecutiveLaneTime, delayedSwitches, lastLaneChange := LaneTime(1, 0), 0, now;
      preferredLane, recentObstacles := -1, [];
      mistakeRollingAverage, mistakeSampleCount := 0.0, 0;
      laneCollisionRollingSums, laneCollisionSampleCounts := [0, 0, 0], [0, 0, 0];
    }

    /** The fields a mistake updates, apart from the hold record. */
    ghost function Snapshot(): Learning
      reads this`totalMistakes, this`mistakeRollingAverage, this`mistakeSampleCount,
            this`laneCollisionRollingSums, this`laneCollisionSampleCounts, this`laneCollisions,
            this`lanePreferences, this`preferredLane
    {
      Learning(totalMistakes, mistakeRollingAverage, mistakeSampleCount, laneCollisionRollingSums,
               laneCollisionSampleCounts, laneCollisions, lanePreferences, preferredLane)
    }
  }

  /** The event injector (unpredictabilityState). */
  class EventState {
    var speedSurgeActive: bool
    var speedSurgeEndTime: int
    var lastEventTime: int
    var nextEventThreshold: real
    var trackShakeActive: bool

    constructor ()
      ensures !speedSurgeActive && speedSurgeEndTime == 0 && lastEventTime == 0
      ensures nextEventThreshold == 0.0 && !trackShakeActive
    {
      speedSurgeActive, speedSurgeEndTime, lastEventTime := false, 0, 0;
      nextEventThreshold, trackShakeActive := 0.0, false;
    }
  }

  /** Whether a lane change in direction `dir` from `lane` stays on the track. */
  predicate CanMove(lane: nat, dir: Direction)
  {
    if dir == Left then lane > 0 else lane < LaneCount - 1
  }

  function Target(lane: nat, dir: Direction): int
  {
    if dir == Left then lane - 1 else lane + 1
  }

  /** `delayedSwitches` after a lane change `elapsed` ms after the previous one: a quick change
      (under 200 ms) lowers it, floored at 0; any slower change raises it by one. */
  function SwitchCount(delayedSwitches: int, elapsed: int): (d: int)
    requires delayedSwitches >= 0
    ensures d >= 0
    ensures elapsed < 200 ==> d == Max(0, delayedSwitches - 1) && d <= delayedSwitches
    ensures elapsed >= 200 ==> d == delayedSwitches + 1
  {
    if elapsed < 200 then Max(0, delayedSwitches - 1) else delayedSwitches + 1
  }

  /** The per-tick hold tracking: the hold time grows while the player stays in `lane` and restarts
      at 0 in a new lane. */
  function Hold(t: LaneTime, lane: nat): (t': LaneTime)
    ensures t'.lane == lane
    ensures t'.time == if t.lane == lane then t.time + 1 else 0
  {
    var t1 := t.(time := t.time + 1);
    if t1.lane != lane then LaneTime(lane, 0) else t1
  }

  /** The lane-change handler shared by the arrow keys and horizontal swipes. The two branches of
      the last-moment check both count a slow change, so that check has no effect on state. */
  method ChangeLane(g: GameState, m: LearningModel, dir: Direction, now: int)
    requires g.Valid() && m.Valid()
    modifies g`currentLane, m`delayedSwitches, m`lanePreferences, m`lastLaneChange, m`consecutiveLaneTime
    ensures g.Valid() && m.Valid()
    ensures !(old(g.running) && CanMove(old(g.currentLane), dir)) ==>
              g.currentLane == old(g.currentLane) && m.delayedSwitches == old(m.delayedSwitches) &&
              m.lanePreferences == old(m.lanePreferences) && m.lastLaneChange == old(m.lastLaneChange) &&
              m.consecutiveLaneTime == old(m.consecutiveLaneTime)
    ensures old(g.running) && CanMove(old(g.currentLane), dir) ==>
              g.currentLane == Target(old(g.currentLane), dir) &&
              (forall i :: 0 <= i < LaneCount ==>
                 m.lanePreferences[i] == old(m.lanePreferences[i]) + (if i == g.currentLane then 1 else 0)) &&
              m.delayedSwitches == SwitchCount(old(m.delayedSwitches), now - old(m.lastLaneChange)) &&
              m.lastLaneChange == now &&
              m.consecutiveLaneTime == (if old(m.consecutiveLaneTime.lane) != g.currentLane
                                        then LaneTime(g.currentLane, 0) else old(m.consecutiveLaneTime))
  {
    if !g.running || !CanMove(g.currentLane, dir) {
      return;
    }
    m.delayedSwitches := SwitchCount(m.delayedSwitches, now - m.lastLaneChange);
    g.currentLane := Target(g.currentLane, dir);
    m.lanePreferences := m.lanePreferences[g.currentLane := m.lanePreferences[g.currentLane] + 1];
    m.lastLaneChange := now;
    if m.consecutiveLaneTime.lane != g.currentLane {
      m.consecutiveLaneTime := LaneTime(g.currentLane, 0);
    }
  }

  /** The rolling mistake average exactly as analyzeMistake computes it: (old * n + 1) / min(10, n + 1).
      Once the window is full this divides n + 1 samples' worth by 10. */
  function RollingAverageAsWritten(avg: real, n: nat): real
  {
    (avg * n as real + 1.0) / Min(MaxSamples, n + 1) as real
  }

  /** With a full window of ten mistakes the average written above rises past 1, although every
      sample it has taken is a 1. */
  lemma RollingAverageAsWrittenDrifts()
    ensures RollingAverageAsWritten(1.0, MaxSamples) == 1.1
  {
  }

  /** The mean of k samples of which k - 1 average `avg` and one is a 1. */
  function MeanWithOne(avg: real, k: nat): real
    requires k >= 1
  {
    (avg * (k - 1) as real + 1.0) / k as real
  }

  lemma MeanWithOneBounds(avg: real, k: nat)
    requires k >= 1
    ensures 0.0 <= avg <= 1.0 ==> 0.0 <= MeanWithOne(avg, k) <= 1.0
    ensures avg == 1.0 ==> MeanWithOne(avg, k) == 1.0
  {
    var x := avg * (k - 1) as real + 1.0;
    if 0.0 <= avg <= 1.0 {
      MulMonotone(1.0, avg, (k - 1) as real);
      MulMonotone(avg, 0.0, (k - 1) as real);
      assert 1.0 <= x <= k as real;
      assert x / k as real <= k as real / k as real;
    }
  }

  /** The rolling mistake average of a window of at most 10 samples, each a 1: while the window
      fills it is the plain mean; once it is full the new sample replaces one old sample's worth. */
  function RollingAverage(avg: real, n: nat): (r: real)
    ensures n < MaxSamples ==> r == RollingAverageAsWritten(avg, n)
    ensures 0.0 <= avg <= 1.0 ==> 0.0 <= r <= 1.0
    ensures avg == 1.0 || n == 0 ==> r == 1.0
  {
    var k := if n < MaxSamples then n + 1 else n;
    MeanWithOneBounds(avg, k);
    MeanWithOne(avg, k)
  }

  /** laneCollisions[lane] after the window decay and the increment of analyzeMistake, before the
      targeting boost: a full window first takes one off, floored at 0. */
  function DecayedCollisions(c: real, count: nat): (r: real)
    requires c >= 0.0
    ensures r >= 1.0
    ensures count < MaxSamples ==> r == c + 1.0
    ensures count >= MaxSamples ==> r == MaxReal(0.0, c - 1.0) + 1.0 && r <= MaxReal(c, 1.0)
  {
    (if count < MaxSamples then c else MaxReal(0.0, c - 1.0)) + 1.0
  }

  /** The targeting boost of updateAIOnMistake: min(5, 2 + totalMistakes / 10). */
  function Boost(totalMistakes: nat): (w: real)
    ensures 2.0 <= w <= 5.0
  {
    MinReal(5.0, 2.0 + totalMistakes as real / 10.0)
  }

  /** The first rule of updateAIOnMistake: a lane held for more than 30 ticks becomes the preferred
      lane when it is also the first most-used lane; otherwise the preferred lane stays. */
  function LearnPreferred(hold: LaneTime, prefs: seq<nat>, preferredLane: int): (p: int)
    requires |prefs| == LaneCount && hold.lane < LaneCount
    ensures p == if hold.time > 30 && FirstMax(Reals(prefs), hold.lane) then hold.lane as int else preferredLane
  {
    var mostPreferred := ArgMax(Reals(prefs));
    ArgMaxIsFirstMax(Reals(prefs), hold.lane);
    if hold.time > 30 && hold.lane == mostPreferred then mostPreferred else preferredLane
  }

  /** The second rule: when the lane just hit is the first lane with the highest collision rate,
      its targeting weight grows by Boost(totalMistakes); no other lane's weight changes. */
  function BoostCollisions(collisions: seq<real>, rates: seq<real>, lane: nat, totalMistakes: nat): (r: seq<real>)
    requires |collisions| == |rates| == LaneCount && lane < LaneCount
    ensures |r| == LaneCount
    ensures forall i :: 0 <= i < LaneCount && i != lane ==> r[i] == collisions[i]
    ensures r[lane] == collisions[lane] + if FirstMax(rates, lane) then Boost(totalMistakes) else 0.0
  {
    ArgMaxIsFirstMax(rates, lane);
    if ArgMax(rates) == lane then collisions[lane := collisions[lane] + Boost(totalMistakes)] else collisions
  }

  /** The third rule: after more than two slow lane changes the first least-used lane gains one
      preference, which is then the only change. */
  function PushLeastUsed(prefs: seq<nat>, delayedSwitches: int): (r: seq<nat>)
    requires |prefs| == LaneCount
    ensures |r| == LaneCount
    ensures delayedSwitches <= 2 ==> r == prefs
    ensures delayedSwitches > 2 ==>
              forall i :: 0 <= i < LaneCount ==> r[i] == prefs[i] + if FirstMin(Reals(prefs), i) then 1 else 0
  {
    if delayedSwitches > 2 then
      // indexOf(Math.min(...)) of a three-element array is never -1
      var leastUsed := ArgMin(Reals(prefs));
      assert forall i :: 0 <= i < LaneCount ==> (FirstMin(Reals(prefs), i) <==> i == leastUsed) by {
        forall i | 0 <= i < LaneCount {
          ArgMinIsFirstMin(Reals(prefs), i);
        }
      }
      prefs[leastUsed := prefs[leastUsed] + 1]
    else prefs
  }

  /** The learning-model fields a mistake updates (all but the hold record), as one value. */
  datatype Learning = Learning(totalMistakes: nat, average: real, samples: nat, sums: seq<nat>,
                               counts: seq<nat>, collisions: seq<real>, prefs: seq<nat>, preferredLane: int)

  /** The counting part of analyzeMistake on those fields, for a collision in `lane`. */
  function Counted(l: Learning, lane: nat): Learning
    requires |l.sums| == |l.counts| == |l.collisions| == LaneCount && lane < LaneCount && l.collisions[lane] >= 0.0
  {
    l.(totalMistakes := l.totalMistakes + 1,
       average := RollingAverage(l.average, l.samples),
       samples := Min(MaxSamples, l.samples + 1),
       sums := l.sums[lane := l.sums[lane] + 1],
       counts := l.counts[lane := Min(MaxSamples, l.counts[lane] + 1)],
       collisions := l.collisions[lane := DecayedCollisions(l.collisions[lane], l.counts[lane])])
  }

  /** updateAIOnMistake on those fields: the three learning rules, reading the hold record and the
      slow-switch count. */
  function Adapted(l: Learning, hold: LaneTime, delayedSwitches: int, lane: nat): Learning
    requires |l.sums| == |l.counts| == |l.collisions| == |l.prefs| == LaneCount
    requires lane < LaneCount && hold.lane < LaneCount
  {
    l.(collisions := BoostCollisions(l.collisions, Normalized(l.sums, l.counts), lane, l.totalMistakes),
       prefs := PushLeastUsed(l.prefs, delayedSwitches),
       preferredLane := LearnPreferred(hold, l.prefs, l.preferredLane))
  }

  /** What analyzeMistake and updateAIOnMistake together make of those fields after a collision
      in `lane`. */
  function AfterMistake(l: Learning, hold: LaneTime, delayedSwitches: int, lane: nat): Learning
    requires |l.sums| == |l.counts| == |l.collisions| == |l.prefs| == LaneCount
    requires lane < LaneCount && hold.lane < LaneCount && l.collisions[lane] >= 0.0
  {
    Adapted(Counted(l, lane), hold, delayedSwitches, lane)
  }

  /** What a mistake does to the learning fields: one more mistake, the struck lane's counters
      move and no other lane's do, preferences only grow, and the predicted lane is kept or
      becomes a lane held for over 30 ticks. */
  lemma AfterMistakeFacts(l: Learning, hold: LaneTime, delayedSwitches: int, lane: nat)
    requires |l.sums| == |l.counts| == |l.collisions| == |l.prefs| == LaneCount
    requires lane < LaneCount && hold.lane < LaneCount && l.collisions[lane] >= 0.0
    ensures var r := AfterMistake(l, hold, delayedSwitches, lane);
            (|r.sums| == |r.counts| == |r.collisions| == |r.prefs| == LaneCount) &&
            (r.totalMistakes == l.totalMistakes + 1) &&
            (r.samples == Min(MaxSamples, l.samples + 1)) &&
            (0.0 <= l.average <= 1.0 ==> 0.0 <= r.average <= 1.0) &&
            (forall i :: 0 <= i < LaneCount ==> r.sums[i] == l.sums[i] + if i == lane then 1 else 0) &&
            (forall i :: 0 <= i < LaneCount ==> r.counts[i] == if i == lane then Min(MaxSamples, l.counts[i] + 1) else l.counts[i]) &&
            (forall i :: 0 <= i < LaneCount && i != lane ==> r.collisions[i] == l.collisions[i]) &&
            (r.collisions[lane] >= 1.0) &&
            (forall i :: 0 <= i < LaneCount ==> l.prefs[i] <= r.prefs[i]) &&
            (r.preferredLane == l.preferredLane || (hold.time > 30 && r.preferredLane == hold.lane as int))
  {
  }

  /** analyzeMistake, counting part: the rolling mistake average and sample count, the total, and
      the lane's rolling sum, sample count and collision weight. */
  method CountMistake(m: LearningModel, lane: nat)
    requires m.Valid() && lane < LaneCount
    modifies m`mistakeRollingAverage, m`mistakeSampleCount, m`totalMistakes, m`laneCollisionRollingSums,
             m`laneCollisionSampleCounts, m`laneCollisions
    ensures m.Valid()
    ensures m.totalMistakes == old(m.totalMistakes) + 1
    ensures m.mistakeRollingAverage == RollingAverage(old(m.mistakeRollingAverage), old(m.mistakeSampleCount))
    ensures m.mistakeSampleCount == Min(MaxSamples, old(m.mistakeSampleCount) + 1)
    ensures m.laneCollisionRollingSums == old(m.laneCollisionRollingSums)[lane := old(m.laneCollisionRollingSums[lane]) + 1]
    ensures m.laneCollisionSampleCounts ==
              old(m.laneCollisionSampleCounts)[lane := Min(MaxSamples, old(m.laneCollisionSampleCounts[lane]) + 1)]
    ensures m.laneCollisions ==
              old(m.laneCollisions)[lane := DecayedCollisions(old(m.laneCollisions[lane]), old(m.laneCollisionSampleCounts[lane]))]
    ensures m.Snapshot() == Counted(old(m.Snapshot()), lane)
  {
    m.mistakeRollingAverage := RollingAverage(m.mistakeRollingAverage, m.mistakeSampleCount);
    if m.mistakeSampleCount < MaxSamples {
      m.mistakeSampleCount := m.mistakeSampleCount + 1;
    }
    m.totalMistakes := m.totalMistakes + 1;
    m.laneCollisionRollingSums := m.laneCollisionRollingSums[lane := m.laneCollisionRollingSums[lane] + 1];
    // the lane's weight: decayed first when its window is full, then one more
    var weight := m.laneCollisions[lane];
    if m.laneCollisionSampleCounts[lane] < MaxSamples {
      m.laneCollisionSampleCounts := m.laneCollisionSampleCounts[lane := m.laneCollisionSampleCounts[lane] + 1];
    } else {
      // normalise by taking the oldest sample off
      weight := MaxReal(0.0, weight - 1.0);
    }
    m.laneCollisions := m.laneCollisions[lane := weight + 1.0];
  }

  /** analyzeMistake followed by updateAIOnMistake, for a collision in `lane`. */
  method AnalyzeMistake(m: LearningModel, lane: nat)
    requires m.Valid() && lane < LaneCount
    modifies m`mistakeRollingAverage, m`mistakeSampleCount, m`totalMistakes, m`laneCollisionRollingSums,
             m`laneCollisionSampleCounts, m`laneCollisions, m`preferredLane, m`lanePreferences,
             m`consecutiveLaneTime
    ensures m.Valid()
    ensures m.Snapshot() == AfterMistake(old(m.Snapshot()), old(m.consecutiveLaneTime), old(m.delayedSwitches), lane)
    ensures m.consecutiveLaneTime == LaneTime(old(m.consecutiveLaneTime.lane), 0)
  {
    CountMistake(m, lane);
    UpdateAIOnMistake(m, lane);
  }

  /** updateAIOnMistake: learn the preferred lane, boost the lane that is hit most, and push the
      least-used lane when the player is slow to switch; the hold time restarts. */
  method UpdateAIOnMistake(m: LearningModel, lane: nat)
    requires m.Valid() && lane < LaneCount
    modifies m`preferredLane, m`laneCollisions, m`lanePreferences, m`consecutiveLaneTime
    ensures m.Valid()
    ensures m.preferredLane == LearnPreferred(old(m.consecutiveLaneTime), old(m.lanePreferences), old(m.preferredLane))
    ensures m.laneCollisions == BoostCollisions(old(m.laneCollisions), Normalized(m.laneCollisionRollingSums, m.laneCollisionSampleCounts),
                                                lane, m.totalMistakes)
    ensures m.lanePreferences == PushLeastUsed(old(m.lanePreferences), m.delayedSwitches)
    ensures m.consecutiveLaneTime == LaneTime(old(m.consecutiveLaneTime.lane), 0)
    ensures m.Snapshot() == Adapted(old(m.Snapshot()), old(m.consecutiveLaneTime), m.delayedSwitches, lane)
  {
    var rates := Normalized(m.laneCollisionRollingSums, m.laneCollisionSampleCounts);
    m.preferredLane := LearnPreferred(m.consecutiveLaneTime, m.lanePreferences, m.preferredLane);
    m.laneCollisions := BoostCollisions(m.laneCollisions, rates, lane, m.totalMistakes);
    m.lanePreferences := PushLeastUsed(m.lanePreferences, m.delayedSwitches);
    m.consecutiveLaneTime := m.consecutiveLaneTime.(time := 0);
  }

  /** The lane selectAdaptiveLane picks for the current state. */
  function NextLane(g: GameState, m: LearningModel, r: real): (lane: nat)
    reads g, m
    requires m.Valid()
    ensures lane < LaneCount
  {
    SelectAdaptiveLane(m.lanePreferences, m.totalMistakes, g.score, m.preferredLane,
                       m.consecutiveLaneTime.lane, m.consecutiveLaneTime.time, m.delayedSwitches,
                       m.laneCollisionRollingSums, m.laneCollisionSampleCounts, r)
  }

  /** recentObstacles after a push: only the 10 newest records are kept. */
  function KeepNewest(s: seq<ObstacleRecord>): (r: seq<ObstacleRecord>)
    ensures |r| == if |s| > 10 then |s| - 1 else |s|
    ensures |s| <= 11 ==> |r| <= 10
    ensures r == s[|s| - |r|..]
  {
    if |s| > 10 then s[1..] else s
  }

  /** spawnAdaptiveObstacle (state part): a new obstacle at the top in the selected lane and shape,
      recorded among the recent obstacles. */
  method SpawnAdaptiveObstacle(g: GameState, m: LearningModel, now: int, rLane: real, rKind: real)
    requires g.Valid() && m.Valid()
    modifies g`obstacles, g`lastObstacleY, m`recentObstacles
    ensures g.Valid() && m.Valid()
    ensures var o := Obstacle(old(NextLane(g, m, rLane)), SelectAdaptiveType(m.totalMistakes, g.score, rKind), SpawnY);
            g.obstacles == old(g.obstacles) + [o] &&
            m.recentObstacles == KeepNewest(old(m.recentObstacles) + [ObstacleRecord(o.lane, o.kind, now, now)])
    ensures g.lastObstacleY == SpawnY
  {
    var lane := NextLane(g, m, rLane);
    var kind := SelectAdaptiveType(m.totalMistakes, g.score, rKind);
    var o := Obstacle(lane, kind, SpawnY);
    g.obstacles := g.obstacles + [o];
    m.recentObstacles := KeepNewest(m.recentObstacles + [ObstacleRecord(lane, kind, now, now)]);
    g.lastObstacleY := o.y;
  }

  /** updateObstacles: a reverse loop that moves each obstacle down by 3 * speed and splices out
      the ones past the travel bound. */
  method UpdateObstacles(g: GameState)
    requires g.Valid()
    modifies g`obstacles
    ensures g.Valid()
    ensures g.obstacles == Advance(old(g.obstacles), 3.0 * g.speed)
  {
    ghost var orig := g.obstacles;
    var dy := 3.0 * g.speed;
    var i := |g.obstacles|;
    while i > 0
      invariant 0 <= i <= |orig|
      invariant g.obstacles == orig[..i] + Advance(orig[i..], dy)
    {
      i := i - 1;
      assert orig[i..][1..] == orig[i + 1..];
      assert orig[..i + 1] == orig[..i] + [orig[i]];
      var o := g.obstacles[i];
      o := o.(y := o.y + dy);
      if o.y > TravelBound {
        g.obstacles := g.obstacles[..i] + g.obstacles[i + 1..];
      } else {
        g.obstacles := g.obstacles[i := o];
      }
    }
    assert orig[..0] == [];
    AdvanceBounds(orig, dy);
  }

  /** The first obstacle, in spawn order, that hits a player in `lane`; -1 if none does. */
  method FirstHit(obs: seq<Obstacle>, lane: nat) returns (k: int)
    ensures -1 <= k < |obs|
    ensures k == -1 <==> forall i :: 0 <= i < |obs| ==> !Hits(obs[i], lane)
    ensures k >= 0 ==> Hits(obs[k], lane) && forall i :: 0 <= i < k ==> !Hits(obs[i], lane)
  {
    k := 0;
    while k < |obs|
      invariant 0 <= k <= |obs|
      invariant forall i :: 0 <= i < k ==> !Hits(obs[i], lane)
    {
      if Hits(obs[k], lane) {
        return;
      }
      k := k + 1;
    }
    k := -1;
  }

  predicate AnyHit(obs: seq<Obstacle>, lane: nat)
  {
    exists i :: 0 <= i < |obs| && Hits(obs[i], lane)
  }

  /** endGame (state part): the run stops. */
  method EndGame(g: GameState)
    modifies g`running
    ensures !g.running
  {
    g.running := false;
  }

  /** checkCollisions: the first obstacle in the player's lane whose band meets the player's band
      records one mistake in its lane and ends the run. */
  method CheckCollisions(g: GameState, m: LearningModel)
    requires g.Valid() && m.Valid()
    modifies g`running, m`mistakeRollingAverage, m`mistakeSampleCount, m`totalMistakes,
             m`laneCollisionRollingSums, m`laneCollisionSampleCounts, m`laneCollisions,
             m`preferredLane, m`lanePreferences, m`consecutiveLaneTime
    ensures g.Valid() && m.Valid()
    ensures g.obstacles == old(g.obstacles) && g.speed == old(g.speed) && g.lastSpawnTime == old(g.lastSpawnTime) &&
            g.currentLane == old(g.currentLane) && g.score == old(g.score)
    ensures !AnyHit(g.obstacles, g.currentLane) ==>
              g.running == old(g.running) && m.Snapshot() == old(m.Snapshot()) &&
              m.consecutiveLaneTime == old(m.consecutiveLaneTime)
    ensures AnyHit(g.obstacles, g.currentLane) ==>
              !g.running &&
              m.Snapshot() == AfterMistake(old(m.Snapshot()), old(m.consecutiveLaneTime), old(m.delayedSwitches), g.currentLane) &&
              m.consecutiveLaneTime == LaneTime(old(m.consecutiveLaneTime.lane), 0)
    ensures forall i :: 0 <= i < LaneCount ==> old(m.lanePreferences[i]) <= m.lanePreferences[i]
  {
    var k := FirstHit(g.obstacles, g.currentLane);
    if k >= 0 {
      AnalyzeMistake(m, g.obstacles[k].lane);
      EndGame(g);
    }
  }

  /** triggerSpeedSurge (state part): a 2000 ms surge starting now. */
  method TriggerSpeedSurge(u: EventState, now: int)
    modifies u`speedSurgeActive, u`speedSurgeEndTime
    ensures u.speedSurgeActive && u.speedSurgeEndTime == now + 2000
  {
    u.speedSurgeActive := true;
    u.speedSurgeEndTime := now + 2000;
  }

  /** triggerTrackShake (state part); the shake is cosmetic and ends with EndTrackShake. */
  method TriggerTrackShake(u: EventState)
    modifies u`trackShakeActive
    ensures u.trackShakeActive
  {
    u.trackShakeActive := true;
  }

  /** The 800 ms timer that triggerTrackShake arms, as an explicit call. */
  method EndTrackShake(u: EventState)
    modifies u`trackShakeActive
    ensures !u.trackShakeActive
  {
    u.trackShakeActive := false;
  }

  /** Whether the event injector fires: from score 300 on, once more than the threshold has passed
      since the last event. */
  predicate EventDue(score: nat, now: int, lastEvent: int, threshold: real)
  {
    score >= 300 && (now - lastEvent) as real > threshold
  }

  /** checkUnpredictableEvents: when an event is due, a coin picks a surge or a shake (started only
      if not already active), and the event clock and threshold are renewed either way. */
  method CheckUnpredictableEvents(g: GameState, u: EventState, now: int, rKind: real, rThreshold: real)
    requires IsDraw(rThreshold)
    modifies u
    ensures var due := EventDue(g.score, now, old(u.lastEventTime), old(u.nextEventThreshold));
            var surge := due && rKind > 0.5 && !old(u.speedSurgeActive);
            var shake := due && rKind <= 0.5 && !old(u.trackShakeActive);
            (u.lastEventTime, u.nextEventThreshold) ==
              (if due then (now, EventThreshold(rThreshold)) else (old(u.lastEventTime), old(u.nextEventThreshold))) &&
            u.speedSurgeActive == (surge || old(u.speedSurgeActive)) &&
            u.speedSurgeEndTime == (if surge then now + 2000 else old(u.speedSurgeEndTime)) &&
            u.trackShakeActive == (shake || old(u.trackShakeActive))
  {
    if g.score < 300 {
      return;
    }
    if (now - u.lastEventTime) as real > u.nextEventThreshold {
      var surgeChosen := rKind > 0.5;
      if surgeChosen && !u.speedSurgeActive {
        TriggerSpeedSurge(u, now);
      } else if !surgeChosen && !u.trackShakeActive {
        TriggerTrackShake(u);
      }
      u.lastEventTime := now;
      u.nextEventThreshold := EventThreshold(rThreshold);
    }
  }

  /** The speed of a tick at `score`: 1 + score / 500, times 1.5 during a surge. */
  function TickSpeed(score: nat, surge: bool): (s: real)
    ensures s >= 1.0
    ensures !surge ==> (s - 1.0) * 500.0 == score as real
    ensures surge ==> s * 2.0 == 3.0 * (1.0 + score as real / 500.0)
  {
    var base := 1.0 + score as real / 500.0;
    if surge then base * 1.5 else base
  }

  /** The first part of a tick: the event check, the end of an expired surge, and the speed. A
      surge stays on only if it was started by this tick or has not yet reached its end time. */
  method TickEvents(g: GameState, u: EventState, now: int, d: TickDraws)
    requires g.Valid() && ValidDraws(d)
    modifies g`speed, u
    ensures g.Valid()
    ensures g.speed == TickSpeed(g.score, u.speedSurgeActive)
    ensures var due := EventDue(g.score, now, old(u.lastEventTime), old(u.nextEventThreshold));
            u.lastEventTime == (if due then now else old(u.lastEventTime)) &&
            u.nextEventThreshold == (if due then EventThreshold(d.eventThreshold) else old(u.nextEventThreshold)) &&
            u.trackShakeActive == (old(u.trackShakeActive) || (due && d.eventKind <= 0.5)) &&
            u.speedSurgeActive == ((due && d.eventKind > 0.5 && !old(u.speedSurgeActive)) ||
                                   (old(u.speedSurgeActive) && now < old(u.speedSurgeEndTime))) &&
            u.speedSurgeEndTime == (if due && d.eventKind > 0.5 && !old(u.speedSurgeActive) then now + 2000
                                    else old(u.speedSurgeEndTime))
  {
    CheckUnpredictableEvents(g, u, now, d.eventKind, d.eventThreshold);
    var surge := false;
    if u.speedSurgeActive {
      if now >= u.speedSurgeEndTime {
        u.speedSurgeActive := false;
      } else {
        surge := true;
      }
    }
    g.speed := TickSpeed(g.score, surge);
  }

  /** The obstacle a spawn in the current state adds. */
  function NextObstacle(g: GameState, m: LearningModel, d: TickDraws): (o: Obstacle)
    reads g, m
    requires m.Valid()
    ensures o.lane < LaneCount && o.y == SpawnY
    ensures o.kind == SelectAdaptiveType(m.totalMistakes, g.score, d.kind)
  {
    Obstacle(NextLane(g, m, d.lane), SelectAdaptiveType(m.totalMistakes, g.score, d.kind), SpawnY)
  }

  /** The spawn part of a tick: once more than the adaptive interval has passed since the last
      spawn, one obstacle is added and the spawn clock restarts. */
  method TickSpawn(g: GameState, m: LearningModel, now: int, d: TickDraws) returns (ghost spawned: seq<Obstacle>)
    requires g.Valid() && m.Valid()
    modifies g`obstacles, g`lastObstacleY, g`lastSpawnTime, m`recentObstacles
    ensures g.Valid() && m.Valid()
    ensures spawned == if (now - old(g.lastSpawnTime)) as real > SpawnInterval(g.speed, m.totalMistakes)
                       then [old(NextObstacle(g, m, d))] else []
    ensures g.obstacles == old(g.obstacles) + spawned
    ensures g.lastSpawnTime == if spawned != [] then now else old(g.lastSpawnTime)
    ensures m.recentObstacles == if spawned == [] then old(m.recentObstacles)
                                 else KeepNewest(old(m.recentObstacles) + [ObstacleRecord(spawned[0].lane, spawned[0].kind, now, now)])
  {
    spawned := [];
    if (now - g.lastSpawnTime) as real > SpawnInterval(g.speed, m.totalMistakes) {
      SpawnAdaptiveObstacle(g, m, now, d.lane, d.kind);
      spawned := [g.obstacles[|g.obstacles| - 1]];
      g.lastSpawnTime := now;
    }
  }

  /** gameLoop: one tick. A tick after the run has ended changes nothing. Otherwise: events, speed,
      maybe a spawn, the obstacle advance, the collision check, then the score and the hold time
      (these last two run even in the tick that ends the run). `spawned` is the obstacle the tick
      added, if any. */
  method GameLoop(g: GameState, m: LearningModel, u: EventState, now: int, d: TickDraws)
    returns (ghost spawned: seq<Obstacle>)
    requires g.Valid() && m.Valid() && ValidDraws(d)
    modifies g, m, u
    ensures g.Valid() && m.Valid()
    ensures !old(g.running) ==> unchanged(g) && unchanged(m) && unchanged(u) && spawned == []
    ensures old(g.running) ==>
              var due := EventDue(old(g.score), now, old(u.lastEventTime), old(u.nextEventThreshold));
              u.lastEventTime == (if due then now else old(u.lastEventTime)) &&
              u.nextEventThreshold == (if due then EventThreshold(d.eventThreshold) else old(u.nextEventThreshold)) &&
              u.trackShakeActive == (old(u.trackShakeActive) || (due && d.eventKind <= 0.5)) &&
              u.speedSurgeActive == ((due && d.eventKind > 0.5 && !old(u.speedSurgeActive)) ||
                                     (old(u.speedSurgeActive) && now < old(u.speedSurgeEndTime))) &&
              u.speedSurgeEndTime == (if due && d.eventKind > 0.5 && !old(u.speedSurgeActive) then now + 2000
                                      else old(u.speedSurgeEndTime))
    ensures old(g.running) ==>
              g.score == old(g.score) + 1 &&
              g.currentLane == old(g.currentLane) &&
              g.speed == TickSpeed(old(g.score), u.speedSurgeActive) &&
              spawned == (if (now - old(g.lastSpawnTime)) as real > SpawnInterval(g.speed, old(m.totalMistakes))
                          then [old(NextObstacle(g, m, d))] else []) &&
              g.lastSpawnTime == (if spawned != [] then now else old(g.lastSpawnTime)) &&
              g.obstacles == Advance(old(g.obstacles) + spawned, 3.0 * g.speed)
    ensures old(g.running) ==>
              (g.running <==> !AnyHit(g.obstacles, g.currentLane)) &&
              m.totalMistakes == old(m.totalMistakes) + (if g.running then 0 else 1) &&
              m.delayedSwitches == old(m.delayedSwitches) && m.lastLaneChange == old(m.lastLaneChange) &&
              m.recentObstacles == (if spawned == [] then old(m.recentObstacles)
                                    else KeepNewest(old(m.recentObstacles) + [ObstacleRecord(spawned[0].lane, spawned[0].kind, now, now)])) &&
              (forall i :: 0 <= i < LaneCount ==> old(m.lanePreferences[i]) <= m.lanePreferences[i])
    ensures old(g.running) && g.running ==>
              m.Snapshot() == old(m.Snapshot()) &&
              m.consecutiveLaneTime == Hold(old(m.consecutiveLaneTime), g.currentLane)
    ensures old(g.running) && !g.running ==>
              var lane := g.currentLane;
              m.Snapshot() == AfterMistake(old(m.Snapshot()), old(m.consecutiveLaneTime), old(m.delayedSwitches), lane) &&
              m.consecutiveLaneTime == LaneTime(lane, if old(m.consecutiveLaneTime.lane) == lane then 1 else 0)
  {
    spawned := [];
    if !g.running {
      return;
    }
    spawned := RunningTick(g, m, u, now, d);
  }

  /** A tick of a running game: TickMove, then TickFinish. */
  method RunningTick(g: GameState, m: LearningModel, u: EventState, now: int, d: TickDraws)
    returns (ghost spawned: seq<Obstacle>)
    requires g.Valid() && m.Valid() && ValidDraws(d) && g.running
    modifies g`running, g`score, g`speed, g`obstacles, g`lastObstacleY, g`lastSpawnTime, u,
             m`mistakeRollingAverage, m`mistakeSampleCount, m`totalMistakes, m`laneCollisionRollingSums,
             m`laneCollisionSampleCounts, m`laneCollisions, m`preferredLane, m`lanePreferences,
             m`consecutiveLaneTime, m`recentObstacles
    ensures g.Valid() && m.Valid()
    ensures var due := EventDue(old(g.score), now, old(u.lastEventTime), old(u.nextEventThreshold));
            u.lastEventTime == (if due then now else old(u.lastEventTime)) &&
            u.nextEventThreshold == (if due then EventThreshold(d.eventThreshold) else old(u.nextEventThreshold)) &&
            u.trackShakeActive == (old(u.trackShakeActive) || (due && d.eventKind <= 0.5)) &&
            u.speedSurgeActive == ((due && d.eventKind > 0.5 && !old(u.speedSurgeActive)) ||
                                   (old(u.speedSurgeActive) && now < old(u.speedSurgeEndTime))) &&
            u.speedSurgeEndTime == (if due && d.eventKind > 0.5 && !old(u.speedSurgeActive) then now + 2000
                                    else old(u.speedSurgeEndTime))
    ensures g.score == old(g.score) + 1 && g.currentLane == old(g.currentLane)
    ensures g.speed == TickSpeed(old(g.score), u.speedSurgeActive)
    ensures spawned == (if (now - old(g.lastSpawnTime)) as real > SpawnInterval(g.speed, old(m.totalMistakes))
                        then [old(NextObstacle(g, m, d))] else [])
    ensures g.lastSpawnTime == (if spawned != [] then now else old(g.lastSpawnTime))
    ensures g.obstacles == Advance(old(g.obstacles) + spawned, 3.0 * g.speed)
    ensures g.running <==> !AnyHit(g.obstacles, g.currentLane)
    ensures m.totalMistakes == old(m.totalMistakes) + (if g.running then 0 else 1)
    ensures m.recentObstacles == (if spawned == [] then old(m.recentObstacles)
                                  else KeepNewest(old(m.recentObstacles) + [ObstacleRecord(spawned[0].lane, spawned[0].kind, now, now)]))
    ensures forall i :: 0 <= i < LaneCount ==> old(m.lanePreferences[i]) <= m.lanePreferences[i]
    ensures g.running ==>
              m.Snapshot() == old(m.Snapshot()) &&
              m.consecutiveLaneTime == Hold(old(m.consecutiveLaneTime), g.currentLane)
    ensures !g.running ==>
              var lane := g.currentLane;
              m.Snapshot() == AfterMistake(old(m.Snapshot()), old(m.consecutiveLaneTime), old(m.delayedSwitches), lane) &&
              m.consecutiveLaneTime == LaneTime(lane, if old(m.consecutiveLaneTime.lane) == lane then 1 else 0)
  {
    spawned := TickMove(g, m, u, now, d);
    TickFinish(g, m, Advance(old(g.obstacles) + spawned, 3.0 * g.speed));
  }

  /** The first part of a running tick: the events and the speed, maybe a spawn, then the obstacle
      advance. */
  method TickMove(g: GameState, m: LearningModel, u: EventState, now: int, d: TickDraws)
    returns (ghost spawned: seq<Obstacle>)
    requires g.Valid() && m.Valid() && ValidDraws(d)
    modifies g`speed, g`obstacles, g`lastObstacleY, g`lastSpawnTime, m`recentObstacles, u
    ensures g.Valid() && m.Valid()
    ensures var due := EventDue(old(g.score), now, old(u.lastEventTime), old(u.nextEventThreshold));
            u.lastEventTime == (if due then now else old(u.lastEventTime)) &&
            u.nextEventThreshold == (if due then EventThreshold(d.eventThreshold) else old(u.nextEventThreshold)) &&
            u.trackShakeActive == (old(u.trackShakeActive) || (due && d.eventKind <= 0.5)) &&
            u.speedSurgeActive == ((due && d.eventKind > 0.5 && !old(u.speedSurgeActive)) ||
                                   (old(u.speedSurgeActive) && now < old(u.speedSurgeEndTime))) &&
            u.speedSurgeEndTime == (if due && d.eventKind > 0.5 && !old(u.speedSurgeActive) then now + 2000
                                    else old(u.speedSurgeEndTime))
    ensures g.speed == TickSpeed(old(g.score), u.speedSurgeActive)
    ensures spawned == (if (now - old(g.lastSpawnTime)) as real > SpawnInterval(g.speed, old(m.totalMistakes))
                        then [old(NextObstacle(g, m, d))] else [])
    ensures g.lastSpawnTime == (if spawned != [] then now else old(g.lastSpawnTime))
    ensures g.obstacles == Advance(old(g.obstacles) + spawned, 3.0 * g.speed)
    ensures m.recentObstacles == (if spawned == [] then old(m.recentObstacles)
                                  else KeepNewest(old(m.recentObstacles) + [ObstacleRecord(spawned[0].lane, spawned[0].kind, now, now)]))
    ensures g.running == old(g.running) && g.score == old(g.score) && g.currentLane == old(g.currentLane)
    ensures m.Snapshot() == old(m.Snapshot()) && m.consecutiveLaneTime == old(m.consecutiveLaneTime) &&
            m.delayedSwitches == old(m.delayedSwitches) && m.lastLaneChange == old(m.lastLaneChange)
  {
    TickEvents(g, u, now, d);
    spawned := TickSpawn(g, m, now, d);
    UpdateObstacles(g);
  }

  /** The end of a tick: the collision check, then the score and the hold time, which both move on
      even when the collision has just ended the run. */
  method TickFinish(g: GameState, m: LearningModel, ghost moved: seq<Obstacle>)
    requires g.Valid() && m.Valid() && g.obstacles == moved
    modifies g`running, g`score, m`mistakeRollingAverage, m`mistakeSampleCount, m`totalMistakes,
             m`laneCollisionRollingSums, m`laneCollisionSampleCounts, m`laneCollisions,
             m`preferredLane, m`lanePreferences, m`consecutiveLaneTime
    ensures g.Valid() && m.Valid()
    ensures g.score == old(g.score) + 1
    ensures g.obstacles == moved && g.speed == old(g.speed) && g.lastSpawnTime == old(g.lastSpawnTime) &&
            g.currentLane == old(g.currentLane)
    ensures !AnyHit(g.obstacles, g.currentLane) ==>
              g.running == old(g.running) && m.Snapshot() == old(m.Snapshot()) &&
              m.consecutiveLaneTime == Hold(old(m.consecutiveLaneTime), g.currentLane)
    ensures AnyHit(g.obstacles, g.currentLane) ==>
              var lane := g.currentLane;
              !g.running &&
              m.Snapshot() == AfterMistake(old(m.Snapshot()), old(m.consecutiveLaneTime), old(m.delayedSwitches), lane) &&
              m.consecutiveLaneTime == LaneTime(lane, if old(m.consecutiveLaneTime.lane) == lane then 1 else 0)
    ensures forall i :: 0 <= i < LaneCount ==> old(m.lanePreferences[i]) <= m.lanePreferences[i]
    ensures m.totalMistakes == old(m.totalMistakes) + if AnyHit(g.obstacles, g.currentLane) then 1 else 0
  {
    CheckCollisions(g, m);
    g.score := g.score + 1;
    m.consecutiveLaneTime := Hold(m.consecutiveLaneTime, g.currentLane);
  }

  /** The reset part of startGame (restartGame first clears the obstacles, which this also does):
      the run, the lane, the obstacles and the event injector start afresh; the learning model is
      not touched. */
  method ResetRun(g: GameState, u: EventState, now: int, rThreshold: real)
    requires g.Valid() && IsDraw(rThreshold)
    modifies g, u
    ensures g.Valid()
    ensures g.running && g.score == 0 && g.speed == 1.0 && g.currentLane == 1 && g.obstacles == []
    ensures g.lastSpawnTime == now && g.lastObstacleY == old(g.lastObstacleY)
    ensures !u.speedSurgeActive && !u.trackShakeActive && u.lastEventTime == now
    ensures u.nextEventThreshold == EventThreshold(rThreshold) && u.speedSurgeEndTime == old(u.speedSurgeEndTime)
  {
    g.running, g.score, g.speed, g.currentLane, g.obstacles := true, 0, 1.0, 1, [];
    g.lastSpawnTime := now;
    u.speedSurgeActive := false;
    u.lastEventTime := now;
    u.nextEventThreshold := EventThreshold(rThreshold);
    u.trackShakeActive := false;
  }

  /** startGame: reset the run, then run the first tick at once. After it the run is going, one tick
      old, with no obstacle; of the learning model only the hold record has moved on. */
  method StartGame(g: GameState, m: LearningModel, u: EventState, now: int, rThreshold: real, d: TickDraws)
    requires g.Valid() && m.Valid() && IsDraw(rThreshold) && ValidDraws(d)
    modifies g, m, u
    ensures g.Valid() && m.Valid()
    ensures g.running && g.score == 1 && g.speed == 1.0 && g.currentLane == 1 && g.obstacles == []
    ensures g.lastSpawnTime == now
    ensures !u.speedSurgeActive && !u.trackShakeActive && u.lastEventTime == now
    ensures u.nextEventThreshold == EventThreshold(rThreshold)
    ensures m.totalMistakes == old(m.totalMistakes) && m.lanePreferences == old(m.lanePreferences)
    ensures m.laneCollisions == old(m.laneCollisions) && m.delayedSwitches == old(m.delayedSwitches)
    ensures m.lastLaneChange == old(m.lastLaneChange) && m.preferredLane == old(m.preferredLane)
    ensures m.recentObstacles == old(m.recentObstacles)
    ensures m.mistakeRollingAverage == old(m.mistakeRollingAverage) && m.mistakeSampleCount == old(m.mistakeSampleCount)
    ensures m.laneCollisionRollingSums == old(m.laneCollisionRollingSums)
    ensures m.laneCollisionSampleCounts == old(m.laneCollisionSampleCounts)
    ensures m.consecutiveLaneTime == Hold(old(m.consecutiveLaneTime), 1)
  {
    ResetRun(g, u, now, rThreshold);
    var spawned := GameLoop(g, m, u, now, d);
    assert Advance([], 3.0 * g.speed) == [];
  }

  /** restartGame: clear the obstacles and start again; the learning model carries over. */
  method RestartGame(g: GameState, m: LearningModel, u: EventState, now: int, rThreshold: real, d: TickDraws)
    requires g.Valid() && m.Valid() && IsDraw(rThreshold) && ValidDraws(d)
    modifies g, m, u
    ensures g.Valid() && m.Valid()
    ensures g.running && g.score == 1 && g.speed == 1.0 && g.currentLane == 1 && g.obstacles == []
    ensures g.lastSpawnTime == now
    ensures !u.speedSurgeActive && !u.trackShakeActive && u.lastEventTime == now
    ensures u.nextEventThreshold == EventThreshold(rThreshold)
    ensures m.totalMistakes == old(m.totalMistakes) && m.lanePreferences == old(m.lanePreferences)
    ensures m.laneCollisions == old(m.laneCollisions) && m.delayedSwitches == old(m.delayedSwitches)
    ensures m.lastLaneChange == old(m.lastLaneChange) && m.preferredLane == old(m.preferredLane)
    ensures m.recentObstacles == old(m.recentObstacles)
    ensures m.mistakeRollingAverage == old(m.mistakeRollingAverage) && m.mistakeSampleCount == old(m.mistakeSampleCount)
    ensures m.laneCollisionRollingSums == old(m.laneCollisionRollingSums)
    ensures m.laneCollisionSampleCounts == old(m.laneCollisionSampleCounts)
    ensures m.consecutiveLaneTime == Hold(old(m.consecutiveLaneTime), 1)
  {
    g.obstacles := [];
    StartGame(g, m, u, now, rThreshold, d);
  }
}
