/** Pure decision rules of the lane runner (projects/mistakerunner/game.js):
    lane and obstacle-shape selection, spawn pacing, the event-threshold draw,
    the collision band and the per-tick obstacle advance.  Every random draw
    is a parameter `r` with 0 <= r < 1. */
module RunnerRules {

  /** Lane indices are 0 (left), 1 (centre) and 2 (right). */
  const LaneCount: nat := 3
  /** Window size of the rolling mistake and collision samples. */
  const MaxSamples: nat := 10
  /** Top and bottom of the player's band, in screen pixels from the top. */
  const PlayerTop: real := 500.0
  const PlayerBottom: real := 550.0
  /** An obstacle whose y exceeds this bound has passed the player. */
  const TravelBound: real := 700.0
  /** y at which a new obstacle appears, just above the screen. */
  const SpawnY: real := -100.0

  datatype Kind = Low | High

  datatype Obstacle = Obstacle(lane: nat, kind: Kind, y: real)

  /** Pixel height of an obstacle: 50 for a high one, 32 for a low one. */
  function Height(k: Kind): real
  {
    if k == High then 50.0 else 32.0
  }

  function Min(a: int, b: int): int { if a <= b then a else b }
  function Max(a: int, b: int): int { if a >= b then a else b }
  function MinReal(a: real, b: real): real { if a <= b then a else b }
  function MaxReal(a: real, b: real): real { if a >= b then a else b }

  function Sum(s: seq<nat>): nat
  {
    if s == [] then 0 else s[0] + Sum(s[1..])
  }

  /** A sum of naturals is zero exactly when every entry is zero. */
  lemma {:induction false} SumZero(s: seq<nat>)
    ensures Sum(s) == 0 <==> forall i :: 0 <= i < |s| ==> s[i] == 0
  {
    if s != [] {
      SumZero(s[1..]);
      assert forall i :: 1 <= i < |s| ==> s[i] == s[1..][i - 1];
    }
  }

  function Reals(s: seq<nat>): (r: seq<real>)
    ensures |r| == |s| && forall i :: 0 <= i < |s| ==> r[i] == s[i] as real
  {
    seq(|s|, i requires 0 <= i < |s| => s[i] as real)
  }

  /** `s.indexOf(Math.max(...s))`: the first index holding the largest value. */
  function ArgMax(s: seq<real>): (k: nat)
    requires |s| > 0
    ensures k < |s|
    ensures forall j :: 0 <= j < |s| ==> s[j] <= s[k]
    ensures forall j :: 0 <= j < k ==> s[j] < s[k]
  {
    if |s| == 1 then 0
    else
      var k := ArgMax(s[..|s| - 1]);
      if s[|s| - 1] > s[k] then |s| - 1 else k
  }

  /** `s.indexOf(Math.min(...s))`: the first index holding the smallest value. */
  function ArgMin(s: seq<real>): (k: nat)
    requires |s| > 0
    ensures k < |s|
    ensures forall j :: 0 <= j < |s| ==> s[k] <= s[j]
    ensures forall j :: 0 <= j < k ==> s[k] < s[j]
  {
    if |s| == 1 then 0
    else
      var k := ArgMin(s[..|s| - 1]);
      if s[|s| - 1] < s[k] then |s| - 1 else k
  }

  /** k is the first index of a largest value of s. */
  predicate FirstMax(s: seq<real>, k: nat)
  {
    k < |s| && (forall j :: 0 <= j < |s| ==> s[j] <= s[k]) && (forall j :: 0 <= j < k ==> s[j] < s[k])
  }

  /** k is the first index of a smallest value of s. */
  predicate FirstMin(s: seq<real>, k: nat)
  {
    k < |s| && (forall j :: 0 <= j < |s| ==> s[k] <= s[j]) && (forall j :: 0 <= j < k ==> s[k] < s[j])
  }

  /** ArgMax picks the first maximum, and no other index is one. */
  lemma ArgMaxIsFirstMax(s: seq<real>, k: nat)
    requires |s| > 0
    ensures FirstMax(s, k) <==> ArgMax(s) == k
  {
  }

  /** ArgMin picks the first minimum, and no other index is one. */
  lemma ArgMinIsFirstMin(s: seq<real>, k: nat)
    requires |s| > 0
    ensures FirstMin(s, k) <==> ArgMin(s) == k
  {
  }

  /** `Math.min(1, totalMistakes / 20)`. */
  function Confidence(totalMistakes: nat): (c: real)
    ensures 0.0 <= c <= 1.0
    ensures c == 1.0 <==> totalMistakes >= 20
    ensures totalMistakes < 20 ==> c * 20.0 == totalMistakes as real
  {
    MinReal(1.0, totalMistakes as real / 20.0)
  }

  /** Collision rate per lane: rolling sum over `max(1, sample count)`. */
  function Normalized(sums: seq<nat>, counts: seq<nat>): (r: seq<real>)
    requires |sums| == |counts|
    ensures |r| == |sums|
  {
    seq(|sums|, i requires 0 <= i < |sums| => sums[i] as real / Max(1, counts[i]) as real)
  }

  /** Per-lane target score of the "slow to switch" rule: 0.7 per preference plus 2 per unit of collision rate. */
  function LaneScores(prefs: seq<nat>, rates: seq<real>): (r: seq<real>)
    requires |prefs| == |rates|
    ensures |r| == |prefs|
  {
    seq(|prefs|, i requires 0 <= i < |prefs| => prefs[i] as real * 0.7 + rates[i] * 2.0)
  }

  /** The first rule of the chain: no preference data yet, or the draw exceeds the confidence. */
  predicate SpreadEvenly(prefs: seq<nat>, totalMistakes: nat, r: real)
  {
    Sum(prefs) == 0 || r > Confidence(totalMistakes)
  }

  /** selectAdaptiveLane: a priority-ordered rule chain; the first matching rule picks the lane. */
  function SelectAdaptiveLane(prefs: seq<nat>, totalMistakes: nat, score: nat, preferredLane: int,
                              holdLane: nat, holdTime: nat, delayedSwitches: int,
                              sums: seq<nat>, counts: seq<nat>, r: real): (lane: nat)
    requires |prefs| == LaneCount && |sums| == LaneCount && |counts| == LaneCount
    requires -1 <= preferredLane < LaneCount as int && holdLane < LaneCount
    ensures lane < LaneCount
    // rule 1: even spread by score
    ensures SpreadEvenly(prefs, totalMistakes, r) ==> lane == (score / 100) % 3
    // rule 2: the predicted lane
    ensures !SpreadEvenly(prefs, totalMistakes, r) && preferredLane != -1 && Confidence(totalMistakes) > 0.3
            ==> lane == preferredLane
    // rule 3: the lane held for more than 30 ticks
    ensures !SpreadEvenly(prefs, totalMistakes, r) && (preferredLane == -1 || Confidence(totalMistakes) <= 0.3)
            && holdTime > 30 && Confidence(totalMistakes) > 0.2
            ==> lane == holdLane
    // rules 4 and 5: `lane` maximises the rule's score, ties going to the lowest lane
    ensures var c := Confidence(totalMistakes);
            var rates := Normalized(sums, counts);
            var target := if delayedSwitches > 2 && c > 0.4 then LaneScores(prefs, rates) else rates;
            !SpreadEvenly(prefs, totalMistakes, r) && (preferredLane == -1 || c <= 0.3) && (holdTime <= 30 || c <= 0.2)
            ==> (forall j :: 0 <= j < LaneCount ==> target[j] <= target[lane])
                && (forall j :: 0 <= j < lane ==> target[j] < target[lane])
  {
    var c := Confidence(totalMistakes);
    if SpreadEvenly(prefs, totalMistakes, r) then (score / 100) % 3
    else if preferredLane != -1 && c > 0.3 then preferredLane as nat
    else if holdTime > 30 && c > 0.2 then holdLane
    else
      var rates := Normalized(sums, counts);
      if delayedSwitches > 2 && c > 0.4 then ArgMax(LaneScores(prefs, rates))
      else ArgMax(rates)
  }

  /** With no lane changes recorded yet, the lane depends on the score alone: floor(score/100) mod 3. */
  lemma NoPreferencesSpreadsByScore(prefs: seq<nat>, totalMistakes: nat, score: nat, preferredLane: int,
                                    holdLane: nat, holdTime: nat, delayedSwitches: int,
                                    sums: seq<nat>, counts: seq<nat>, r: real)
    requires |prefs| == LaneCount && |sums| == LaneCount && |counts| == LaneCount
    requires -1 <= preferredLane < LaneCount as int && holdLane < LaneCount
    requires forall i :: 0 <= i < LaneCount ==> prefs[i] == 0
    ensures SelectAdaptiveLane(prefs, totalMistakes, score, preferredLane, holdLane, holdTime,
                               delayedSwitches, sums, counts, r) == (score / 100) % 3
  {
    SumZero(prefs);
  }

  /** selectAdaptiveType: a random shape after more than 5 mistakes, otherwise the score cycle
      (4 high then 3 low in every 7 ticks). */
  function SelectAdaptiveType(totalMistakes: nat, score: nat, r: real): (k: Kind)
    ensures totalMistakes <= 5 ==> (k == High <==> score % 7 < 4)
    ensures totalMistakes > 5 ==> (k == High <==> r > 0.5)
  {
    if totalMistakes as real / 10.0 > 0.5 then
      (if r > 0.5 then High else Low)
    else if score % 7 < 4 then High else Low
  }

  /** Up to and including 5 mistakes, the shape is periodic in the score with period 7, whatever the draw. */
  lemma TypeCycleIsPeriodic(totalMistakes: nat, score: nat, r: real, r': real)
    requires totalMistakes <= 5
    ensures SelectAdaptiveType(totalMistakes, score + 7, r) == SelectAdaptiveType(totalMistakes, score, r')
  {
    assert (score + 7) % 7 == score % 7;
  }

  lemma MulMonotone(a: real, b: real, c: real)
    requires a >= b && c >= 0.0
    ensures a * c >= b * c
  {
  }

  /** getAdaptiveSpawnInterval: `max(800 - 100 * speed, 400)`, cut by up to 20 % once there are more than 5 mistakes. */
  function SpawnInterval(speed: real, totalMistakes: nat): (t: real)
    ensures totalMistakes <= 5 ==> t == MaxReal(800.0 - speed * 100.0, 400.0)
    ensures 320.0 <= t <= MaxReal(800.0 - speed * 100.0, 400.0)
  {
    var interval := MaxReal(800.0 - speed * 100.0, 400.0);
    if totalMistakes > 5 then
      var f := 1.0 - Confidence(totalMistakes) * 0.2;
      MulMonotone(interval, 400.0, f);
      MulMonotone(1.0, f, interval);
      interval * f
    else interval
  }

  /** getRandomEventThreshold: a draw in [8000, 15000). */
  function EventThreshold(r: real): (t: real)
    requires 0.0 <= r < 1.0
    ensures 8000.0 <= t < 15000.0
  {
    8000.0 + r * 7000.0
  }

  /** The y-overlap test of checkCollisions: the obstacle's band [y, y + height] meets the player's band. */
  predicate YOverlap(o: Obstacle)
  {
    PlayerTop < o.y + Height(o.kind) && PlayerBottom > o.y
  }

  /** checkCollisions' hit test: same lane and overlapping bands. */
  predicate Hits(o: Obstacle, lane: nat)
  {
    o.lane == lane && YOverlap(o)
  }

  /** An obstacle hits the player exactly while its top lies in an open window just above the
      player's bottom: (450, 550) for a high obstacle and (468, 550) for a low one. */
  lemma HitWindow(o: Obstacle, lane: nat)
    ensures Hits(o, lane) <==> o.lane == lane && PlayerTop - Height(o.kind) < o.y < PlayerBottom
    ensures o.kind == High ==> (YOverlap(o) <==> 450.0 < o.y < 550.0)
    ensures o.kind == Low ==> (YOverlap(o) <==> 468.0 < o.y < 550.0)
  {
  }

  function Moved(o: Obstacle, dy: real): Obstacle
  {
    o.(y := o.y + dy)
  }

  /** updateObstacles as a value: every obstacle moves down by `dy`; those past the travel bound
      are dropped, the rest stay in spawn order. */
  function Advance(obs: seq<Obstacle>, dy: real): seq<Obstacle>
  {
    if obs == [] then []
    else
      var o := Moved(obs[0], dy);
      (if o.y > TravelBound then [] else [o]) + Advance(obs[1..], dy)
  }

  /** An obstacle survives the advance iff it is the moved copy of an input obstacle that is still
      within the travel bound. */
  lemma {:induction false} AdvanceMembers(obs: seq<Obstacle>, dy: real, o: Obstacle)
    ensures o in Advance(obs, dy) <==> exists k :: 0 <= k < |obs| && o == Moved(obs[k], dy) && o.y <= TravelBound
  {
    if obs != [] {
      AdvanceMembers(obs[1..], dy, o);
      if o in Advance(obs[1..], dy) {
        var k :| 0 <= k < |obs[1..]| && o == Moved(obs[1..][k], dy) && o.y <= TravelBound;
        assert obs[1..][k] == obs[k + 1];
      }
      if exists k :: 0 <= k < |obs| && o == Moved(obs[k], dy) && o.y <= TravelBound {
        var k :| 0 <= k < |obs| && o == Moved(obs[k], dy) && o.y <= TravelBound;
        if k > 0 {
          assert obs[1..][k - 1] == obs[k];
        }
      }
    }
  }

  /** The advance distributes over concatenation: survivors keep their relative spawn order. */
  lemma {:induction false} AdvanceAppend(a: seq<Obstacle>, b: seq<Obstacle>, dy: real)
    ensures Advance(a + b, dy) == Advance(a, dy) + Advance(b, dy)
  {
    if a != [] {
      assert (a + b)[1..] == a[1..] + b;
      AdvanceAppend(a[1..], b, dy);
    } else {
      assert a + b == b;
    }
  }

  /** The advance never produces more obstacles, never changes a lane and never keeps one past the bound. */
  lemma {:induction false} AdvanceBounds(obs: seq<Obstacle>, dy: real)
    ensures |Advance(obs, dy)| <= |obs|
    ensures forall i :: 0 <= i < |Advance(obs, dy)| ==> Advance(obs, dy)[i].y <= TravelBound
    ensures (forall i :: 0 <= i < |obs| ==> obs[i].lane < LaneCount) ==>
            forall i :: 0 <= i < |Advance(obs, dy)| ==> Advance(obs, dy)[i].lane < LaneCount
  {
    if obs != [] {
      AdvanceBounds(obs[1..], dy);
      var o := Moved(obs[0], dy);
      var head := if o.y > TravelBound then [] else [o];
      assert Advance(obs, dy) == head + Advance(obs[1..], dy);
      if forall i :: 0 <= i < |obs| ==> obs[i].lane < LaneCount {
        assert forall i :: 0 <= i < |obs[1..]| ==> obs[1..][i].lane < LaneCount by {
          forall i | 0 <= i < |obs[1..]| ensures obs[1..][i].lane < LaneCount {
            assert obs[1..][i] == obs[i + 1];
          }
        }
      }
    }
  }
}
