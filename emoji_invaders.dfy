/** The rules of the Emoji Invaders shooter (projects/emoji-invaders/script.js): the game-state
    machine, the enemy grid of each level, shooting with a cooldown, the per-frame update with its
    reverse splicing loops, and the top-3 high-score table.  Canvas size is fixed at construction;
    every Math.random() draw of a frame is a parameter in [0, 1). */
module EmojiInvaders {

  datatype Phase = Start | Playing | Paused | GameOver

  /** An axis-aligned rectangle: left, top, width, height. */
  datatype Box = Box(x: real, y: real, w: real, h: real)

  /** checkCollision: the two rectangles overlap strictly on both axes. */
  predicate Collide(a: Box, b: Box)
  {
    a.x < b.x + b.w && a.x + a.w > b.x && a.y < b.y + b.h && a.y + a.h > b.y
  }

  /** Overlap is symmetric, and rectangles that only share an edge do not collide. */
  lemma CollideSymmetric(a: Box, b: Box)
    ensures Collide(a, b) <==> Collide(b, a)
    ensures a.x + a.w == b.x || b.x + b.w == a.x || a.y + a.h == b.y || b.y + b.h == a.y ==> !Collide(a, b)
  {
  }

  const PlayerWidth: real := 50.0
  const PlayerHeight: real := 40.0
  const PlayerSpeed: real := 7.0
  const BulletWidth: real := 6.0
  const BulletHeight: real := 15.0
  const BulletSpeed: real := 8.0
  const EnemyBulletSpeed: real := 5.0
  const CooldownMax: real := 15.0
  const EnemySize: real := 40.0
  const DropDistance: real := 20.0
  const ShootChance: real := 0.005
  const PowerUpChance: real := 0.3
  const PowerUpSize: real := 30.0
  const PowerUpFall: real := 2.0
  /** rapidFireTimer runs down by 16 ms per frame. */
  const FrameMillis: int := 16
  const RapidFireMillis: int := 10000

  datatype Bullet = Bullet(x: real, y: real, speed: real)

  function BulletBox(b: Bullet): Box
  {
    Box(b.x, b.y, BulletWidth, BulletHeight)
  }

  /** The four entries of enemyTypes, top row first. */
  datatype EnemyType = Sleepy | Dizzy | MindBlown | Alien

  function Points(t: EnemyType): nat
  {
    match t
    case Sleepy => 10
    case Dizzy => 15
    case MindBlown => 25
    case Alien => 50
  }

  function TypeSpeed(t: EnemyType): real
  {
    match t
    case Sleepy => 0.8
    case Dizzy => 1.2
    case MindBlown => 1.5
    case Alien => 1.0
  }

  function TypeHealth(t: EnemyType): nat
  {
    match t
    case Sleepy => 1
    case Dizzy => 1
    case MindBlown => 2
    case Alien => 3
  }

  /** enemyTypes[min(row, 3)]. */
  function RowType(row: nat): EnemyType
  {
    if row == 0 then Sleepy else if row == 1 then Dizzy else if row == 2 then MindBlown else Alien
  }

  datatype Enemy = Enemy(x: real, y: real, kind: EnemyType, health: int, speed: real)

  function EnemyBox(e: Enemy): Box
  {
    Box(e.x, e.y, EnemySize, EnemySize)
  }

  datatype PowerUpKind = Focus | Shield | Motivation

  datatype PowerUp = PowerUp(x: real, y: real, kind: PowerUpKind)

  function PowerUpBox(p: PowerUp): Box
  {
    Box(p.x, p.y, PowerUpSize, PowerUpSize)
  }

  predicate IsDraw(r: real) { 0.0 <= r < 1.0 }

  /** powerUpTypes[floor(r * 3)]. */
  function KindOf(r: real): (k: PowerUpKind)
    requires IsDraw(r)
    ensures k == Focus <==> r * 3.0 < 1.0
    ensures k == Motivation <==> 2.0 <= r * 3.0
  {
    if r * 3.0 < 1.0 then Focus else if r * 3.0 < 2.0 then Shield else Motivation
  }

  function Min(a: int, b: int): int { if a <= b then a else b }

  /* ---------------- the enemy grid ---------------- */

  function Rows(level: nat): nat
    requires level >= 1
  {
    4 + Min(level - 1, 3)
  }

  function Cols(level: nat): nat
    requires level >= 1
  {
    8 + Min(level - 1, 4)
  }

  /** 1 + (level - 1) * 0.2: the speed factor of a level. */
  function LevelFactor(level: nat): real
    requires level >= 1
  {
    1.0 + (level - 1) as real * 0.2
  }

  /** The enemy createEnemies places at (row, col): 40x40 cells on a 60-pixel pitch from (50, 50). */
  function GridEnemy(level: nat, row: nat, col: nat): (e: Enemy)
    requires level >= 1
    ensures e.kind == RowType(row) && e.health == TypeHealth(e.kind)
    ensures e.x == col as real * 60.0 + 50.0 && e.y == row as real * 60.0 + 50.0
    ensures e.speed == TypeSpeed(e.kind) * LevelFactor(level)
  {
    var t := RowType(row);
    Enemy((col * 60) as real + 50.0, (row * 60) as real + 50.0, t, TypeHealth(t), TypeSpeed(t) * LevelFactor(level))
  }

  /** The first n enemies of grid row `row`. */
  function GridRow(level: nat, row: nat, n: nat): (r: seq<Enemy>)
    requires level >= 1
    ensures |r| == n
  {
    seq(n, col requires 0 <= col < n => GridEnemy(level, row, col))
  }

  /** The first r full rows of the grid, row by row. */
  function GridRows(level: nat, r: nat): seq<Enemy>
    requires level >= 1
  {
    if r == 0 then [] else GridRows(level, r - 1) + GridRow(level, r - 1, Cols(level))
  }

  function Grid(level: nat): seq<Enemy>
    requires level >= 1
  {
    GridRows(level, Rows(level))
  }

  lemma MulSucc(a: nat, c: nat)
    ensures (a + 1) * c == a * c + c
  {
  }

  /** r full rows hold r * cols enemies. */
  lemma {:induction false} GridRowsLength(level: nat, r: nat)
    requires level >= 1
    ensures |GridRows(level, r)| == r * Cols(level)
  {
    if r > 0 {
      GridRowsLength(level, r - 1);
      MulSucc(r - 1, Cols(level));
    }
  }

  /** The enemy at row * cols + col of r full rows is the one of that cell. */
  lemma {:induction false} GridRowsCell(level: nat, r: nat, row: nat, col: nat)
    requires level >= 1 && row < r && col < Cols(level)
    ensures row * Cols(level) + col < |GridRows(level, r)|
    ensures GridRows(level, r)[row * Cols(level) + col] == GridEnemy(level, row, col)
  {
    var c := Cols(level);
    var prev, last := GridRows(level, r - 1), GridRow(level, r - 1, c);
    GridRowsLength(level, r - 1);
    MulSucc(row, c);
    if row < r - 1 {
      GridRowsCell(level, r - 1, row, col);
    } else {
      assert row * c + col == |prev| + col;
    }
  }

  /** r full rows hold r * cols enemies; the enemy at row * cols + col is the one of that cell. */
  lemma GridRowsShape(level: nat, r: nat)
    requires level >= 1
    ensures LaidOut(level, r, GridRows(level, r))
  {
    GridRowsLength(level, r);
    forall row, col | 0 <= row < r && 0 <= col < Cols(level)
      ensures row * Cols(level) + col < |GridRows(level, r)|
      ensures GridRows(level, r)[row * Cols(level) + col] == GridEnemy(level, row, col)
    {
      GridRowsCell(level, r, row, col);
    }
  }

  /** createEnemies' result: (4 + min(level-1, 3)) * (8 + min(level-1, 4)) enemies, and every cell
      of the grid carries its row's type, that type's health and the level's speed. */
  lemma GridShape(level: nat)
    requires level >= 1
    ensures LaidOut(level, Rows(level), Grid(level))
  {
    GridRowsShape(level, Rows(level));
  }

  /** g holds `rows` full rows of the level's grid, row by row: rows * cols enemies, and the one
      at row * cols + col is the GridEnemy of that cell. */
  ghost predicate LaidOut(level: nat, rows: nat, g: seq<Enemy>)
    requires level >= 1
  {
    |g| == rows * Cols(level) &&
    forall row, col :: 0 <= row < rows && 0 <= col < Cols(level) ==>
      row * Cols(level) + col < |g| && g[row * Cols(level) + col] == GridEnemy(level, row, col)
  }

  /* ---------------- the per-frame sweeps, as functions ---------------- */

  /** A bullet after one frame: it moves up by its speed. */
  function Fly(b: Bullet): Bullet
  {
    b.(y := b.y - b.speed)
  }

  /** The bullet step: every bullet flies, those leaving the top (y < 0) are dropped, and the rest
      keep their order. */
  function Flown(bs: seq<Bullet>): (r: seq<Bullet>)
    ensures |r| <= |bs|
    ensures forall k :: 0 <= k < |r| ==> r[k].y >= 0.0
  {
    if bs == [] then []
    else (if Fly(bs[0]).y < 0.0 then [] else [Fly(bs[0])]) + Flown(bs[1..])
  }

  /** A bullet survives the step exactly when it is the flown image of one with y >= 0 after. */
  lemma {:induction false} FlownMembers(bs: seq<Bullet>, b: Bullet)
    ensures b in Flown(bs) <==> exists k :: 0 <= k < |bs| && b == Fly(bs[k]) && b.y >= 0.0
  {
    if bs != [] {
      FlownMembers(bs[1..], b);
      if b in Flown(bs[1..]) {
        var k :| 1 <= k + 1 < |bs| + 1 && 0 <= k < |bs[1..]| && b == Fly(bs[1..][k]) && b.y >= 0.0;
        assert b == Fly(bs[k + 1]);
      }
      if exists k :: 0 <= k < |bs| && b == Fly(bs[k]) && b.y >= 0.0 {
        var k :| 0 <= k < |bs| && b == Fly(bs[k]) && b.y >= 0.0;
        if k > 0 {
          assert bs[1..][k - 1] == bs[k];
        }
      }
    }
  }

  /** The index the inner bullet loop settles on: the last bullet hitting the box, or -1. */
  function LastHitIndex(bs: seq<Bullet>, box: Box): (j: int)
    ensures -1 <= j < |bs|
    ensures j >= 0 ==> Collide(BulletBox(bs[j]), box)
    ensures forall k :: j < k < |bs| ==> !Collide(BulletBox(bs[k]), box)
  {
    if bs == [] then -1
    else if Collide(BulletBox(bs[|bs| - 1]), box) then |bs| - 1
    else LastHitIndex(bs[..|bs| - 1], box)
  }

  /** splice(i, 1). */
  function Remove<T>(s: seq<T>, i: nat): (r: seq<T>)
    requires i < |s|
    ensures |r| == |s| - 1 && r[..i] == s[..i] && r[i..] == s[i + 1..]
  {
    s[..i] + s[i + 1..]
  }

  function Moved(e: Enemy, dir: int): Enemy
  {
    e.(x := e.x + e.speed * dir as real)
  }

  /** The edge test after a move: the enemy touches the left or right edge of the canvas. */
  predicate AtEdge(e: Enemy, width: real)
  {
    e.x <= 0.0 || e.x + EnemySize >= width
  }

  /** The bullet enemiesShoot creates, under the enemy's centre. */
  function EnemyBullet(e: Enemy): Bullet
  {
    Bullet(e.x + EnemySize / 2.0 - 3.0, e.y + EnemySize, EnemyBulletSpeed)
  }

  /** What the sweep reads but does not change: the direction, the canvas, the player's box and
      shield. */
  datatype Context = Context(dir: int, width: real, height: real, player: Box, shielded: bool)

  /** What the enemy sweep changes, and the shouldDrop flag it raises. */
  datatype Sweep = Sweep(enemies: seq<Enemy>, bullets: seq<Bullet>, powerUps: seq<PowerUp>,
                         lives: int, score: nat, shouldDrop: bool)

  /** The draws one enemy consumes: the shot, the power-up chance and the power-up type. */
  datatype EnemyDraw = EnemyDraw(shoot: real, drop: real, kind: real)

  predicate ValidDraws(ds: seq<EnemyDraw>)
  {
    forall k :: 0 <= k < |ds| ==> IsDraw(ds[k].shoot) && IsDraw(ds[k].drop) && IsDraw(ds[k].kind)
  }

  /** enemiesShoot: a shot that lands on the player costs a life unless shielded; any other shot
      joins the bullet list (and flies up like the player's). */
  function Fire(bullets: seq<Bullet>, lives: int, e: Enemy, c: Context): (r: (seq<Bullet>, int))
    // at most one life is lost, and none under the shield
    ensures lives - 1 <= r.1 <= lives
    ensures c.shielded ==> r.1 == lives
    // the existing bullets stay in place; at most the enemy's own shot is appended
    ensures |bullets| <= |r.0| <= |bullets| + 1 && r.0[..|bullets|] == bullets
    ensures |r.0| == |bullets| + 1 ==> r.0[|bullets|] == EnemyBullet(e)
    // a shot is either kept or costs the life, never both
    ensures r.1 < lives ==> |r.0| == |bullets|
    // the shot is dropped exactly when it starts on the player, and then costs a life unless shielded
    ensures |r.0| == |bullets| <==> Collide(BulletBox(EnemyBullet(e)), c.player)
    ensures !c.shielded && |r.0| == |bullets| ==> r.1 == lives - 1
  {
    var b := EnemyBullet(e);
    if Collide(BulletBox(b), c.player) then (bullets, if c.shielded then lives else lives - 1)
    else (bullets + [b], lives)
  }

  /** The first part of an iteration of the enemy loop: the enemy at index i moves one step in
      the current direction, and an edge touch raises shouldDrop. */
  function MoveStage(w: Sweep, i: nat, c: Context): (r: Sweep)
    requires i < |w.enemies|
    ensures |r.enemies| == |w.enemies| && r.enemies[..i] == w.enemies[..i]
    ensures r.enemies[i + 1..] == w.enemies[i + 1..]
    ensures r.enemies[i] == Moved(w.enemies[i], c.dir)
    ensures r.shouldDrop == (w.shouldDrop || AtEdge(Moved(w.enemies[i], c.dir), c.width))
    ensures (r.bullets, r.powerUps, r.lives, r.score) == (w.bullets, w.powerUps, w.lives, w.score)
  {
    var e := Moved(w.enemies[i], c.dir);
    w.(enemies := w.enemies[i := e], shouldDrop := w.shouldDrop || AtEdge(e, c.width))
  }

  /** The second part: with the shot draw below the shooting chance, the enemy fires. */
  function FireStage(w: Sweep, i: nat, c: Context, d: EnemyDraw): (r: Sweep)
    requires i < |w.enemies|
    ensures (r.enemies, r.powerUps, r.score, r.shouldDrop) == (w.enemies, w.powerUps, w.score, w.shouldDrop)
    ensures r.lives <= w.lives
  {
    if d.shoot < ShootChance then
      var f := Fire(w.bullets, w.lives, w.enemies[i], c);
      w.(bullets := f.0, lives := f.1)
    else w
  }

  /** The last part: an enemy at the bottom costs a life and leaves; otherwise the last bullet
      that hits it is used up and takes one health; at no health left the enemy leaves, its points
      are scored and, on the power-up draw, a power-up appears where it was. */
  function HitStage(w: Sweep, i: nat, c: Context, d: EnemyDraw): (r: Sweep)
    requires i < |w.enemies| && IsDraw(d.kind)
    ensures |r.enemies| >= i && r.enemies[..i] == w.enemies[..i] && |r.enemies| <= |w.enemies|
    ensures |r.powerUps| <= |w.powerUps| + 1
    ensures r.lives <= w.lives && r.score >= w.score && r.shouldDrop == w.shouldDrop
  {
    var e := w.enemies[i];
    if e.y + EnemySize >= c.height then
      w.(enemies := Remove(w.enemies, i), lives := w.lives - 1)
    else
      var j := LastHitIndex(w.bullets, EnemyBox(e));
      if j < 0 then w else Struck(w, i, j, d)
  }

  /** The enemies above i, already visited by the reverse loop, keep their order at the end of
      the list whatever the bottom and bullet checks do to enemy i. */
  lemma HitStageKeepsVisited(w: Sweep, i: nat, c: Context, d: EnemyDraw)
    requires i < |w.enemies| && IsDraw(d.kind)
    ensures var r := HitStage(w, i, c, d).enemies; var k := |w.enemies| - 1 - i;
            |r| >= k && r[|r| - k..] == w.enemies[i + 1..]
  {
    var e := w.enemies[i];
    RemoveKeepsTail(w.enemies, i);
    UpdateKeepsTail(w.enemies, i, e.(health := e.health - 1));
  }

  /** Removing index i leaves the elements after it as the tail. */
  lemma RemoveKeepsTail<T>(s: seq<T>, i: nat)
    requires i < |s|
    ensures var r := Remove(s, i); r[|r| - (|s| - 1 - i)..] == s[i + 1..]
  {
  }

  /** Replacing index i leaves the elements after it as the tail. */
  lemma UpdateKeepsTail<T>(s: seq<T>, i: nat, x: T)
    requires i < |s|
    ensures var r := s[i := x]; r[|r| - (|s| - 1 - i)..] == s[i + 1..]
  {
    assert |s[i := x]| - (|s| - 1 - i) == i + 1;
  }

  /** Bullet j strikes enemy i: the bullet is used up and the enemy loses one health; at none left
      it leaves, its points are scored and, on the power-up draw, a power-up appears where it was. */
  function Struck(w: Sweep, i: nat, j: nat, d: EnemyDraw): Sweep
    requires i < |w.enemies| && j < |w.bullets| && IsDraw(d.kind)
  {
    var hit := w.enemies[i].(health := w.enemies[i].health - 1);
    if hit.health <= 0 then
      w.(enemies := Remove(w.enemies, i), bullets := Remove(w.bullets, j),
         powerUps := if d.drop < PowerUpChance then w.powerUps + [PowerUp(hit.x, hit.y, KindOf(d.kind))] else w.powerUps,
         score := w.score + Points(hit.kind))
    else
      w.(enemies := w.enemies[i := hit], bullets := Remove(w.bullets, j))
  }

  /** One iteration of the enemy loop, for the enemy at index i (not yet visited, so still the
      original one). */
  function Step(w: Sweep, i: nat, c: Context, d: EnemyDraw): (r: Sweep)
    requires i < |w.enemies| && IsDraw(d.kind)
    ensures |r.enemies| >= i && r.enemies[..i] == w.enemies[..i]
    ensures |r.enemies| <= |w.enemies| && |r.powerUps| <= |w.powerUps| + 1
    ensures r.lives <= w.lives && r.score >= w.score
    ensures r.shouldDrop == (w.shouldDrop || AtEdge(Moved(w.enemies[i], c.dir), c.width))
  {
    HitStage(FireStage(MoveStage(w, i, c), i, c, d), i, c, d)
  }

  /** The sweep state once the reverse loop has visited indices |enemies| - 1 down to i. */
  function After(s0: Sweep, i: nat, c: Context, ds: seq<EnemyDraw>): (w: Sweep)
    requires i <= |s0.enemies| && |ds| == |s0.enemies| && ValidDraws(ds)
    ensures |w.enemies| >= i && w.enemies[..i] == s0.enemies[..i]
    decreases |s0.enemies| - i
  {
    if i == |s0.enemies| then s0
    else Step(After(s0, i + 1, c, ds), i, c, ds[i])
  }

  /** The whole enemy sweep never adds enemies, never gives a life back, never takes points away,
      adds at most one power-up per enemy, and raises shouldDrop exactly when some enemy, moved
      one step, touches an edge. */
  lemma {:induction false} SweepFacts(s0: Sweep, i: nat, c: Context, ds: seq<EnemyDraw>)
    requires i <= |s0.enemies| && |ds| == |s0.enemies| && ValidDraws(ds)
    ensures var w := After(s0, i, c, ds);
            |w.enemies| <= |s0.enemies| && w.lives <= s0.lives && w.score >= s0.score &&
            |w.powerUps| <= |s0.powerUps| + (|s0.enemies| - i) &&
            (w.shouldDrop <==> s0.shouldDrop || exists k :: i <= k < |s0.enemies| && AtEdge(Moved(s0.enemies[k], c.dir), c.width))
    decreases |s0.enemies| - i
  {
    if i < |s0.enemies| {
      SweepFacts(s0, i + 1, c, ds);
      var w1 := After(s0, i + 1, c, ds);
      assert w1.enemies[i] == s0.enemies[..i + 1][i];
    }
  }

  /** The power-up fall of one frame. */
  function Fall(p: PowerUp): PowerUp
  {
    p.(y := p.y + PowerUpFall)
  }

  /** The power-ups left after the power-up loop: each falls; one that reaches the player is
      collected and one below the canvas is dropped; the rest keep their order. */
  function Landed(ps: seq<PowerUp>, player: Box, height: real): (r: seq<PowerUp>)
    ensures |r| <= |ps|
    ensures forall k :: 0 <= k < |r| ==> !Collide(PowerUpBox(r[k]), player) && r[k].y <= height
  {
    if ps == [] then []
    else
      var q := Fall(ps[0]);
      (if Collide(PowerUpBox(q), player) || q.y > height then [] else [q]) + Landed(ps[1..], player, height)
  }

  /** One visit of the reverse power-up loop, on sequences: with the suffix from i + 1 already
      landed, visiting index i lands the suffix from i, and collects what it collects. */
  lemma PowerUpStep(orig: seq<PowerUp>, i: nat, cur: seq<PowerUp>, player: Box, height: real, b: Boosts)
    requires i < |orig| && cur == orig[..i + 1] + Landed(orig[i + 1..], player, height)
    ensures i < |cur| && cur[i] == orig[i]
    ensures var q := Fall(cur[i]);
            cur[..i] + (if Collide(PowerUpBox(q), player) || q.y > height then [] else [q]) + cur[i + 1..] ==
            orig[..i] + Landed(orig[i..], player, height)
    ensures Collected(orig[i..], player, b) ==
              if Collide(PowerUpBox(Fall(orig[i])), player) then Effect(Collected(orig[i + 1..], player, b), orig[i].kind)
              else Collected(orig[i + 1..], player, b)
  {
    assert orig[i..][1..] == orig[i + 1..];
    assert orig[..i + 1] == orig[..i] + [orig[i]];
    assert cur[..i] == orig[..i] && cur[i + 1..] == Landed(orig[i + 1..], player, height);
  }

  /** How many power-ups of this kind the player collects this frame. */
  function Caught(ps: seq<PowerUp>, player: Box, kind: PowerUpKind): (n: nat)
    ensures n <= |ps|
  {
    if ps == [] then 0
    else (if Collide(PowerUpBox(Fall(ps[0])), player) && ps[0].kind == kind then 1 else 0) + Caught(ps[1..], player, kind)
  }

  /** The state a collected power-up acts on. */
  datatype Boosts = Boosts(score: nat, rapidFire: bool, rapidFireTimer: int, shielded: bool)

  /** A collected power-up's effect (the effect closures of createPowerUp): focus turns on rapid
      fire for 10 s, a shield protects the player, and motivation is worth 100 points. */
  function Effect(b: Boosts, kind: PowerUpKind): Boosts
  {
    match kind
    case Focus => b.(rapidFire := true, rapidFireTimer := RapidFireMillis)
    case Shield => b.(shielded := true)
    case Motivation => b.(score := b.score + 100)
  }

  /** The boosts after the reverse power-up loop over ps: the effects of the later power-ups
      apply first. */
  function Collected(ps: seq<PowerUp>, player: Box, b: Boosts): Boosts
  {
    if ps == [] then b
    else
      var rest := Collected(ps[1..], player, b);
      if Collide(PowerUpBox(Fall(ps[0])), player) then Effect(rest, ps[0].kind) else rest
  }

  /** The effects add up by kind: 100 points per motivation; rapid fire, with a fresh 10 s timer,
      once any focus is collected; the shield once any shield is collected. */
  lemma {:induction false} CollectedByKind(ps: seq<PowerUp>, player: Box, b: Boosts)
    ensures var r := Collected(ps, player, b);
            r.score == b.score + 100 * Caught(ps, player, Motivation) &&
            r.rapidFire == (b.rapidFire || Caught(ps, player, Focus) > 0) &&
            r.rapidFireTimer == (if Caught(ps, player, Focus) > 0 then RapidFireMillis else b.rapidFireTimer) &&
            r.shielded == (b.shielded || Caught(ps, player, Shield) > 0)
  {
    if ps != [] {
      CollectedByKind(ps[1..], player, b);
    }
  }

  /** Every power-up either stays, is collected or leaves the canvas: none is both kept and counted. */
  lemma {:induction false} LandedAndCaught(ps: seq<PowerUp>, player: Box, height: real)
    ensures |Landed(ps, player, height)| + Caught(ps, player, Focus) + Caught(ps, player, Shield) +
            Caught(ps, player, Motivation) <= |ps|
  {
    if ps != [] {
      LandedAndCaught(ps[1..], player, height);
    }
  }

  /** The rows of enemies after the edge drop: every enemy 20 pixels lower, nothing else changed. */
  function Dropped(es: seq<Enemy>): (r: seq<Enemy>)
    ensures |r| == |es|
    ensures forall k :: 0 <= k < |es| ==> r[k].y == es[k].y + DropDistance && r[k].(y := es[k].y) == es[k]
  {
    seq(|es|, k requires 0 <= k < |es| => es[k].(y := es[k].y + DropDistance))
  }

  /** The player's x after keeping it in bounds: first up to 0, then down to width - 50. */
  function Clamp(x: real, width: real): (r: real)
    ensures r <= width - PlayerWidth
    ensures width >= PlayerWidth ==> 0.0 <= r
    ensures 0.0 <= x <= width - PlayerWidth ==> r == x
    ensures x > width - PlayerWidth ==> r == width - PlayerWidth
  {
    var y := if x < 0.0 then 0.0 else x;
    if y > width - PlayerWidth then width - PlayerWidth else y
  }

  /* ---------------- the top-3 high-score table ---------------- */

  datatype ScoreEntry = ScoreEntry(name: string, score: int)

  const BaseScores: seq<ScoreEntry> :=
    [ScoreEntry("Focus Master", 1250), ScoreEntry("Emoji Hunter", 980), ScoreEntry("Laser Pro", 750)]
  const PlayerName: string := "You!"

  predicate Descending(s: seq<ScoreEntry>)
  {
    forall i, j :: 0 <= i < j < |s| ==> s[i].score >= s[j].score
  }

  /** The stable descending sort of a descending list with one entry appended: the entry goes after
      every entry with at least its score. */
  function InsertStable(s: seq<ScoreEntry>, e: ScoreEntry): (r: seq<ScoreEntry>)
    ensures |r| == |s| + 1
  {
    if s == [] then [e]
    else if s[0].score >= e.score then [s[0]] + InsertStable(s[1..], e)
    else [e] + s
  }

  /** Inserting keeps every score under a bound that all the entries respect. */
  lemma {:induction false} InsertStableBound(s: seq<ScoreEntry>, e: ScoreEntry, b: int)
    requires e.score <= b && forall k :: 0 <= k < |s| ==> s[k].score <= b
    ensures forall k :: 0 <= k < |InsertStable(s, e)| ==> InsertStable(s, e)[k].score <= b
  {
    if s != [] && s[0].score >= e.score {
      InsertStableBound(s[1..], e, b);
    }
  }

  /** An entry with at least every score of a descending list can go in front of it. */
  lemma ConsDescending(x: ScoreEntry, t: seq<ScoreEntry>)
    requires Descending(t) && forall k :: 0 <= k < |t| ==> t[k].score <= x.score
    ensures Descending([x] + t)
  {
  }

  /** InsertStable is a permutation of the list plus the entry. */
  lemma {:induction false} InsertStablePermutes(s: seq<ScoreEntry>, e: ScoreEntry)
    ensures multiset(InsertStable(s, e)) == multiset(s) + multiset{e}
  {
    if s != [] {
      assert s == [s[0]] + s[1..];
      if s[0].score >= e.score {
        InsertStablePermutes(s[1..], e);
      }
    }
  }

  /** InsertStable keeps a descending list descending. */
  lemma {:induction false} InsertStableDescending(s: seq<ScoreEntry>, e: ScoreEntry)
    requires Descending(s)
    ensures Descending(InsertStable(s, e))
  {
    if s != [] {
      assert s == [s[0]] + s[1..];
      if s[0].score >= e.score {
        InsertStableDescending(s[1..], e);
        InsertStableBound(s[1..], e, s[0].score);
        ConsDescending(s[0], InsertStable(s[1..], e));
      } else {
        ConsDescending(e, s);
      }
    }
  }

  /** InsertStable is a sort step: the result is a permutation of the list plus the entry, and it
      is in descending order when the list was. */
  lemma InsertStableSorted(s: seq<ScoreEntry>, e: ScoreEntry)
    ensures multiset(InsertStable(s, e)) == multiset(s) + multiset{e}
    ensures Descending(s) ==> Descending(InsertStable(s, e))
  {
    InsertStablePermutes(s, e);
    if Descending(s) {
      InsertStableDescending(s, e);
    }
  }

  /** Where the stable sort puts an entry that beats the third base entry. */
  lemma InsertIntoBase(you: ScoreEntry)
    requires you.score > BaseScores[2].score
    ensures var fm, eh, lp := BaseScores[0], BaseScores[1], BaseScores[2];
            InsertStable(BaseScores, you) ==
              if fm.score < you.score then [you, fm, eh, lp]
              else if eh.score < you.score then [fm, you, eh, lp]
              else [fm, eh, you, lp]
  {
    var fm, eh, lp := BaseScores[0], BaseScores[1], BaseScores[2];
    assert BaseScores[1..] == [eh, lp] && [eh, lp][1..] == [lp] && [lp][1..] == [];
    assert InsertStable([lp], you) == [you, lp];
  }

  /** An entry above a list's last entry is inserted before it. */
  lemma {:induction false} InsertBeforeLast(s: seq<ScoreEntry>, last: ScoreEntry, e: ScoreEntry)
    requires e.score > last.score
    ensures InsertStable(s + [last], e) == InsertStable(s, e) + [last]
  {
    if s == [] {
      assert [] + [last] == [last] && [last][1..] == [];
    } else {
      assert (s + [last])[0] == s[0] && (s + [last])[1..] == s[1..] + [last];
      if s[0].score >= e.score {
        InsertBeforeLast(s[1..], last, e);
      } else {
        assert s == [s[0]] + s[1..];
      }
    }
  }

  /** The top three of the base table with an entry above the third one sorted in: the entry
      sorted into the two best base entries, so in descending order, holding the entry, and
      otherwise those two entries. */
  lemma TopThree(you: ScoreEntry)
    requires you.score > BaseScores[2].score
    ensures var t := InsertStable(BaseScores, you)[..3];
            |t| == 3 && Descending(t) && you in t && multiset(t) == multiset(BaseScores[..2]) + multiset{you}
  {
    var top := BaseScores[..2];
    assert BaseScores == top + [BaseScores[2]];
    InsertBeforeLast(top, BaseScores[2], you);
    InsertStablePermutes(top, you);
    InsertStableDescending(top, you);
    assert InsertStable(BaseScores, you)[..3] == InsertStable(top, you);
    assert you in multiset(InsertStable(top, you));
  }

  /** updateHighScores: the base table, or, for a score above the third entry, the table with the
      player's entry sorted in and the lowest entry dropped. */
  function HighScoreTable(score: int): (t: seq<ScoreEntry>)
    ensures |t| == 3 && Descending(t)
    ensures (exists k :: 0 <= k < |t| && t[k].name == PlayerName) <==> score > 750
    ensures score <= 750 ==> t == BaseScores
    ensures score > 750 ==> multiset(t) == multiset(BaseScores[..2]) + multiset{ScoreEntry(PlayerName, score)}
  {
    if score > BaseScores[2].score then
      var you := ScoreEntry(PlayerName, score);
      TopThree(you);
      InsertStable(BaseScores, you)[..3]
    else BaseScores
  }

  /* ---------------- the game object ---------------- */

  class Game {
    const width: real
    const height: real
    var phase: Phase
    var score: nat
    var lives: int
    var level: nat
    var playerX: real
    var isShielded: bool
    var bullets: seq<Bullet>
    var bulletCooldown: real
    var isRapidFire: bool
    var rapidFireTimer: int
    var enemies: seq<Enemy>
    var enemySpeed: real
    var enemyDirection: int
    var powerUps: seq<PowerUp>
    var highScores: seq<ScoreEntry>

    ghost predicate Valid()
      reads this`level, this`enemyDirection
    {
      level >= 1 && (enemyDirection == 1 || enemyDirection == -1)
    }

    /** The player's rectangle; its y is fixed 60 pixels above the bottom. */
    function PlayerBox(): Box
      reads this`playerX
    {
      Box(playerX, height - 60.0, PlayerWidth, PlayerHeight)
    }

    /** The constructor and init(): the start screen with the level-1 grid. */
    constructor (width: real, height: real)
      ensures Valid()
      ensures this.width == width && this.height == height
      ensures phase == Start && score == 0 && lives == 3 && level == 1
      ensures playerX == width / 2.0 - 25.0 && !isShielded
      ensures bullets == [] && bulletCooldown == 0.0 && !isRapidFire && rapidFireTimer == 0
      ensures enemies == Grid(1) && enemySpeed == 1.0 && enemyDirection == 1
      ensures powerUps == [] && highScores == []
    {
      this.width, this.height := width, height;
      phase, score, lives, level := Start, 0, 3, 1;
      playerX, isShielded := width / 2.0 - 25.0, false;
      bullets, bulletCooldown, isRapidFire, rapidFireTimer := [], 0.0, false, 0;
      enemySpeed, enemyDirection := 1.0, 1;
      powerUps, highScores := [], [];
      new;
      CreateEnemies();
    }

    /** createEnemies: the grid of the current level, pushed row by row. */
    method CreateEnemies()
      requires level >= 1
      modifies this`enemies, this`enemySpeed
      ensures enemies == Grid(level) && enemySpeed == LevelFactor(level)
    {
      enemies := [];
      var rows := 4 + Min(level - 1, 3);
      var cols := 8 + Min(level - 1, 4);
      var row := 0;
      while row < rows
        invariant 0 <= row <= rows
        invariant enemies == GridRows(level, row)
      {
        var col := 0;
        while col < cols
          invariant 0 <= col <= cols
          invariant enemies == GridRows(level, row) + GridRow(level, row, col)
        {
          var t := RowType(row);
          enemies := enemies + [Enemy((col * 60) as real + 50.0, (row * 60) as real + 50.0, t, TypeHealth(t),
                                      TypeSpeed(t) * (1.0 + (level - 1) as real * 0.2))];
          assert GridRow(level, row, col + 1) == GridRow(level, row, col) + [GridEnemy(level, row, col)];
          col := col + 1;
        }
        row := row + 1;
      }
      enemySpeed := 1.0 + (level - 1) as real * 0.2;
    }

    /** handleTouch: while playing, centre the player on the touch and keep it in bounds. */
    method HandleTouch(x: real)
      modifies this`playerX
      ensures old(phase) == Playing ==> playerX == Clamp(x - PlayerWidth / 2.0, width)
      ensures old(phase) != Playing ==> playerX == old(playerX)
    {
      if phase == Playing {
        playerX := x - PlayerWidth / 2.0;
        if playerX < 0.0 { playerX := 0.0; }
        if playerX > width - PlayerWidth {
          playerX := width - PlayerWidth;
        }
      }
    }

    /** startGame (and restartGame): a fresh level-1 run. Direction, cooldown, rapid fire and the
        high-score table carry over. */
    method StartGame()
      requires Valid()
      modifies this`phase, this`score, this`lives, this`level, this`playerX, this`isShielded,
               this`bullets, this`enemies, this`powerUps, this`enemySpeed
      ensures Valid()
      ensures phase == Playing && score == 0 && lives == 3 && level == 1
      ensures playerX == width / 2.0 - 25.0 && !isShielded
      ensures bullets == [] && powerUps == [] && enemies == Grid(1) && enemySpeed == 1.0
    {
      phase, score, lives, level := Playing, 0, 3, 1;
      playerX, isShielded := width / 2.0 - 25.0, false;
      bullets, enemies, powerUps := [], [], [];
      CreateEnemies();
    }

    /** togglePause: playing and paused swap; the other phases stay. */
    method TogglePause()
      modifies this`phase
      ensures phase == match old(phase)
                       case Playing => Paused
                       case Paused => Playing
                       case other => other
    {
      if phase == Playing {
        phase := Paused;
      } else if phase == Paused {
        ResumeGame();
      }
    }

    /** resumeGame: back to playing, from whatever phase. */
    method ResumeGame()
      modifies this`phase
      ensures phase == Playing
    {
      phase := Playing;
    }

    /** shoot: nothing while the cooldown runs; otherwise one bullet from the player's centre, two
        more beside it under rapid fire, and the cooldown restarts (halved under rapid fire). */
    method Shoot()
      modifies this`bullets, this`bulletCooldown
      ensures old(bulletCooldown) > 0.0 ==> bullets == old(bullets) && bulletCooldown == old(bulletCooldown)
      ensures old(bulletCooldown) <= 0.0 ==>
                var y := height - 60.0;
                bullets == old(bullets) + [Bullet(playerX + 22.0, y, BulletSpeed)] +
                           (if isRapidFire then [Bullet(playerX + 17.0, y, BulletSpeed), Bullet(playerX + 27.0, y, BulletSpeed)] else []) &&
                bulletCooldown == (if isRapidFire then CooldownMax / 2.0 else CooldownMax)
      ensures old(bulletCooldown) <= 0.0 ==> |bullets| == |old(bullets)| + (if isRapidFire then 3 else 1)
    {
      if bulletCooldown > 0.0 {
        return;
      }
      var y := height - 60.0;
      bullets := bullets + [Bullet(playerX + PlayerWidth / 2.0 - 3.0, y, BulletSpeed)];
      if isRapidFire {
        bullets := bullets + [Bullet(playerX + PlayerWidth / 2.0 - 8.0, y, BulletSpeed)];
        bullets := bullets + [Bullet(playerX + PlayerWidth / 2.0 + 2.0, y, BulletSpeed)];
      }
      bulletCooldown := if isRapidFire then CooldownMax / 2.0 else CooldownMax;
    }

    /** gameOver (state part): the phase and the high-score table shown. */
    method EndGame()
      modifies this`phase, this`highScores
      ensures phase == GameOver && highScores == HighScoreTable(score)
    {
      phase := GameOver;
      highScores := HighScoreTable(score);
    }

    /** The shield timer that a collected shield arms, as an explicit call. */
    method ShieldExpired()
      modifies this`isShielded
      ensures !isShielded
    {
      isShielded := false;
    }

    /** The cooldown step of update: the shot cooldown counts down one frame; the rapid-fire timer
        runs down 16 ms and rapid fire ends when it runs out. */
    method TickTimers()
      modifies this`bulletCooldown, this`rapidFireTimer, this`isRapidFire
      ensures bulletCooldown == if old(bulletCooldown) > 0.0 then old(bulletCooldown) - 1.0 else old(bulletCooldown)
      ensures rapidFireTimer == if old(rapidFireTimer) > 0 then old(rapidFireTimer) - FrameMillis else old(rapidFireTimer)
      ensures isRapidFire == (old(isRapidFire) && !(0 < old(rapidFireTimer) <= FrameMillis))
    {
      if bulletCooldown > 0.0 {
        bulletCooldown := bulletCooldown - 1.0;
      }
      if rapidFireTimer > 0 {
        rapidFireTimer := rapidFireTimer - FrameMillis;
        if rapidFireTimer <= 0 {
          isRapidFire := false;
        }
      }
    }

    /** The input step of update: left and right keys move the player 7 pixels, then the bounds. */
    method MovePlayer(left: bool, right: bool)
      modifies this`playerX
      ensures playerX == Clamp(old(playerX) - (if left then PlayerSpeed else 0.0) + (if right then PlayerSpeed else 0.0), width)
    {
      if left {
        playerX := playerX - PlayerSpeed;
      }
      if right {
        playerX := playerX + PlayerSpeed;
      }
      if playerX < 0.0 { playerX := 0.0; }
      if playerX > width - PlayerWidth {
        playerX := width - PlayerWidth;
      }
    }

    /** The bullet loop of update, in reverse with splicing. */
    method MoveBullets()
      modifies this`bullets
      ensures bullets == Flown(old(bullets))
    {
      ghost var orig := bullets;
      var i := |bullets|;
      while i > 0
        invariant 0 <= i <= |orig|
        invariant bullets == orig[..i] + Flown(orig[i..])
      {
        i := i - 1;
        assert orig[i..][1..] == orig[i + 1..];
        assert orig[..i + 1] == orig[..i] + [orig[i]];
        var b := bullets[i];
        b := b.(y := b.y - b.speed);
        if b.y < 0.0 {
          bullets := bullets[..i] + bullets[i + 1..];
        } else {
          bullets := bullets[i := b];
        }
      }
      assert orig[..0] == [];
    }

    /** The last bullet, in list order, that hits the box; -1 if none does. */
    method LastHit(bs: seq<Bullet>, box: Box) returns (j: int)
      ensures j == LastHitIndex(bs, box)
    {
      j := |bs| - 1;
      while j >= 0
        invariant -1 <= j < |bs|
        invariant LastHitIndex(bs, box) == LastHitIndex(bs[..j + 1], box)
      {
        assert bs[..j + 1][..j] == bs[..j];
        if Collide(BulletBox(bs[j]), box) {
          return;
        }
        j := j - 1;
      }
      assert bs[..0] == [];
    }

    function SweepContext(): Context
      reads this`enemyDirection, this`playerX, this`isShielded
    {
      Context(enemyDirection, width, height, PlayerBox(), isShielded)
    }

    function CurrentSweep(shouldDrop: bool): Sweep
      reads this`enemies, this`bullets, this`powerUps, this`lives, this`score
    {
      Sweep(enemies, bullets, powerUps, lives, score, shouldDrop)
    }

    /** enemiesShoot. */
    method EnemiesShoot(e: Enemy)
      modifies this`bullets, this`lives
      ensures (bullets, lives) == Fire(old(bullets), old(lives), e, SweepContext())
    {
      var b := EnemyBullet(e);
      if Collide(BulletBox(b), PlayerBox()) {
        if !isShielded {
          lives := lives - 1;
        }
      } else {
        bullets := bullets + [b];
      }
    }

    /** Moving the enemy at index i (the first part of an iteration). */
    method MoveEnemy(i: nat, drop: bool) returns (drop': bool)
      requires i < |enemies|
      modifies this`enemies
      ensures CurrentSweep(drop') == MoveStage(old(CurrentSweep(drop)), i, SweepContext())
    {
      var e := enemies[i];
      e := e.(x := e.x + e.speed * enemyDirection as real);
      enemies := enemies[i := e];
      drop' := drop;
      if e.x <= 0.0 || e.x + EnemySize >= width {
        drop' := true;
      }
      assert e == Moved(old(enemies[i]), enemyDirection);
    }

    /** The enemy at index i fires when the shot draw is below the shooting chance. */
    method MaybeShoot(i: nat, d: EnemyDraw, drop: bool)
      requires i < |enemies|
      modifies this`bullets, this`lives
      ensures CurrentSweep(drop) == FireStage(old(CurrentSweep(drop)), i, SweepContext(), d)
    {
      if d.shoot < ShootChance {
        EnemiesShoot(enemies[i]);
      }
    }

    /** The bottom check and the bullet check for the enemy at index i. */
    method HitEnemy(i: nat, d: EnemyDraw, drop: bool)
      requires i < |enemies| && IsDraw(d.kind)
      modifies this`enemies, this`bullets, this`powerUps, this`lives, this`score
      ensures CurrentSweep(drop) == HitStage(old(CurrentSweep(drop)), i, SweepContext(), d)
    {
      var e := enemies[i];
      if e.y + EnemySize >= height {
        lives := lives - 1;
        enemies := enemies[..i] + enemies[i + 1..];
        return;
      }
      var j := LastHit(bullets, EnemyBox(e));
      if j >= 0 {
        StrikeEnemy(i, j, d, drop);
      }
    }

    /** The bullet at index j has hit the enemy at index i. */
    method StrikeEnemy(i: nat, j: nat, d: EnemyDraw, drop: bool)
      requires i < |enemies| && j < |bullets| && IsDraw(d.kind)
      modifies this`enemies, this`bullets, this`powerUps, this`score
      ensures CurrentSweep(drop) == Struck(old(CurrentSweep(drop)), i, j, d)
    {
      var e := enemies[i].(health := enemies[i].health - 1);
      enemies := enemies[i := e];
      if e.health <= 0 {
        score := score + Points(e.kind);
        if d.drop < PowerUpChance {
          powerUps := powerUps + [PowerUp(e.x, e.y, KindOf(d.kind))];
        }
        enemies := enemies[..i] + enemies[i + 1..];
      }
      bullets := bullets[..j] + bullets[j + 1..];
    }

    /** The enemy loop of update, in reverse with splicing; `shouldDrop` reports an edge touch. */
    method SweepEnemies(ds: seq<EnemyDraw>) returns (shouldDrop: bool)
      requires |ds| == |enemies| && ValidDraws(ds)
      modifies this`enemies, this`bullets, this`powerUps, this`lives, this`score
      ensures CurrentSweep(shouldDrop) == After(old(CurrentSweep(false)), 0, old(SweepContext()), ds)
    {
      ghost var s0 := CurrentSweep(false);
      ghost var c := SweepContext();
      shouldDrop := false;
      var i := |enemies|;
      while i > 0
        invariant 0 <= i <= |s0.enemies| && c == SweepContext()
        invariant CurrentSweep(shouldDrop) == After(s0, i, c, ds)
      {
        i := i - 1;
        ghost var w0 := CurrentSweep(shouldDrop);
        shouldDrop := MoveEnemy(i, shouldDrop);
        ghost var w1 := CurrentSweep(shouldDrop);
        assert w1 == MoveStage(w0, i, c);
        MaybeShoot(i, ds[i], shouldDrop);
        ghost var w2 := CurrentSweep(shouldDrop);
        assert w2 == FireStage(w1, i, c, ds[i]);
        HitEnemy(i, ds[i], shouldDrop);
        assert CurrentSweep(shouldDrop) == HitStage(w2, i, c, ds[i]);
        assert CurrentSweep(shouldDrop) == Step(w0, i, c, ds[i]);
      }
    }

    /** The drop after an edge touch: every enemy moves down 20 pixels. */
    method DropEnemies()
      modifies this`enemies
      ensures enemies == Dropped(old(enemies))
    {
      var k := 0;
      while k < |enemies|
        invariant |enemies| == |old(enemies)| && 0 <= k <= |enemies|
        invariant enemies[..k] == Dropped(old(enemies))[..k] && enemies[k..] == old(enemies)[k..]
      {
        assert enemies[k] == old(enemies)[k..][0];
        enemies := enemies[k := enemies[k].(y := enemies[k].y + DropDistance)];
        k := k + 1;
      }
    }

    function CurrentBoosts(): Boosts
      reads this`score, this`isRapidFire, this`rapidFireTimer, this`isShielded
    {
      Boosts(score, isRapidFire, rapidFireTimer, isShielded)
    }

    /** Running a collected power-up's effect. */
    method ApplyPowerUp(kind: PowerUpKind)
      modifies this`isRapidFire, this`rapidFireTimer, this`isShielded, this`score
      ensures CurrentBoosts() == Effect(old(CurrentBoosts()), kind)
    {
      match kind
      case Focus =>
        isRapidFire := true;
        rapidFireTimer := RapidFireMillis;
      case Shield =>
        isShielded := true;
      case Motivation =>
        score := score + 100;
    }

    /** One turn of the power-up loop: the power-up at i falls, then it is collected, dropped below
        the canvas, or kept at its new height. */
    method VisitPowerUp(i: nat)
      requires i < |powerUps|
      modifies this`powerUps, this`isRapidFire, this`rapidFireTimer, this`isShielded, this`score
      ensures var q := Fall(old(powerUps)[i]);
              var hit := Collide(PowerUpBox(q), PlayerBox());
              powerUps == old(powerUps)[..i] + (if hit || q.y > height then [] else [q]) + old(powerUps)[i + 1..] &&
              CurrentBoosts() == if hit then Effect(old(CurrentBoosts()), q.kind) else old(CurrentBoosts())
    {
      var p := powerUps[i];
      p := p.(y := p.y + PowerUpFall);
      if Collide(PowerUpBox(p), PlayerBox()) {
        ApplyPowerUp(p.kind);
        powerUps := powerUps[..i] + powerUps[i + 1..];
      } else if p.y > height {
        powerUps := powerUps[..i] + powerUps[i + 1..];
      } else {
        assert powerUps[i := p] == powerUps[..i] + [p] + powerUps[i + 1..];
        powerUps := powerUps[i := p];
      }
    }

    /** The power-up loop of update, in reverse with splicing. */
    method MovePowerUps()
      modifies this`powerUps, this`isRapidFire, this`rapidFireTimer, this`isShielded, this`score
      ensures powerUps == Landed(old(powerUps), PlayerBox(), height)
      ensures CurrentBoosts() == Collected(old(powerUps), PlayerBox(), old(CurrentBoosts()))
    {
      ghost var orig := powerUps;
      ghost var b0 := CurrentBoosts();
      ghost var box := PlayerBox();
      var i := |powerUps|;
      while i > 0
        invariant 0 <= i <= |orig|
        invariant box == PlayerBox()
        invariant powerUps == orig[..i] + Landed(orig[i..], box, height)
        invariant CurrentBoosts() == Collected(orig[i..], box, b0)
      {
        i := i - 1;
        PowerUpStep(orig, i, powerUps, box, height, b0);
        VisitPowerUp(i);
      }
      assert orig[..0] == [];
    }

    /** The first part of a frame: the timers, the player's move and the bullet step. */
    method FrameStart(left: bool, right: bool)
      modifies this`bulletCooldown, this`rapidFireTimer, this`isRapidFire, this`playerX, this`bullets
      ensures bulletCooldown == if old(bulletCooldown) > 0.0 then old(bulletCooldown) - 1.0 else old(bulletCooldown)
      ensures rapidFireTimer == if old(rapidFireTimer) > 0 then old(rapidFireTimer) - FrameMillis else old(rapidFireTimer)
      ensures isRapidFire == (old(isRapidFire) && !(0 < old(rapidFireTimer) <= FrameMillis))
      ensures playerX == Clamp(old(playerX) - (if left then PlayerSpeed else 0.0) + (if right then PlayerSpeed else 0.0), width)
      ensures bullets == Flown(old(bullets))
    {
      TickTimers();
      MovePlayer(left, right);
      MoveBullets();
    }

    /** The enemy part of a frame: the sweep, the next level when the board was already empty, and
        the drop with a turn of direction when some enemy touched an edge. */
    method FrameEnemies(ds: seq<EnemyDraw>)
      requires Valid() && |ds| == |enemies| && ValidDraws(ds)
      modifies this`enemies, this`bullets, this`powerUps, this`lives, this`score, this`level,
               this`enemySpeed, this`enemyDirection
      ensures Valid()
      ensures level == old(level) + (if old(enemies) == [] then 1 else 0)
      ensures enemySpeed == if old(enemies) == [] then LevelFactor(level) else old(enemySpeed)
      ensures var w := After(old(CurrentSweep(false)), 0, old(SweepContext()), ds);
              var edge := exists k :: 0 <= k < |old(enemies)| && AtEdge(Moved(old(enemies)[k], old(enemyDirection)), width);
              var e := if old(enemies) == [] then Grid(level) else w.enemies;
              bullets == w.bullets && powerUps == w.powerUps && lives == w.lives && score == w.score &&
              enemyDirection == (if edge then -old(enemyDirection) else old(enemyDirection)) &&
              enemies == (if edge then Dropped(e) else e)
    {
      ghost var c := SweepContext();
      ghost var s0 := CurrentSweep(false);
      var hasEnemies := |enemies| > 0;
      var shouldDrop := SweepEnemies(ds);
      SweepFacts(s0, 0, c, ds);
      if !hasEnemies {
        level := level + 1;
        CreateEnemies();
      }
      if shouldDrop {
        enemyDirection := -enemyDirection;
        DropEnemies();
      }
    }

    /** The last part of a frame: the power-ups, then game over once no life is left. */
    method FrameEnd()
      modifies this`powerUps, this`isRapidFire, this`rapidFireTimer, this`isShielded, this`score,
               this`phase, this`highScores
      ensures powerUps == Landed(old(powerUps), PlayerBox(), height)
      ensures CurrentBoosts() == Collected(old(powerUps), PlayerBox(), old(CurrentBoosts()))
      ensures phase == if lives <= 0 then GameOver else old(phase)
      ensures highScores == if lives <= 0 then HighScoreTable(score) else old(highScores)
    {
      MovePowerUps();
      if lives <= 0 {
        EndGame();
      }
    }

    /** Everything of a frame after the timers, the player and the bullets. */
    method FrameRest(ds: seq<EnemyDraw>)
      requires Valid() && |ds| == |enemies| && ValidDraws(ds)
      modifies this`enemies, this`bullets, this`powerUps, this`lives, this`score, this`level,
               this`enemySpeed, this`enemyDirection, this`isRapidFire, this`rapidFireTimer,
               this`isShielded, this`phase, this`highScores
      ensures Valid()
      ensures level == old(level) + (if old(enemies) == [] then 1 else 0)
      ensures enemySpeed == if old(enemies) == [] then LevelFactor(level) else old(enemySpeed)
      ensures var w := After(old(CurrentSweep(false)), 0, old(SweepContext()), ds);
              var edge := exists k :: 0 <= k < |old(enemies)| && AtEdge(Moved(old(enemies)[k], old(enemyDirection)), width);
              var e := if old(enemies) == [] then Grid(level) else w.enemies;
              bullets == w.bullets && lives == w.lives &&
              enemyDirection == (if edge then -old(enemyDirection) else old(enemyDirection)) &&
              enemies == (if edge then Dropped(e) else e) &&
              powerUps == Landed(w.powerUps, PlayerBox(), height) &&
              CurrentBoosts() == Collected(w.powerUps, PlayerBox(), Boosts(w.score, old(isRapidFire), old(rapidFireTimer), old(isShielded)))
      ensures phase == (if lives <= 0 then GameOver else old(phase))
      ensures highScores == (if lives <= 0 then HighScoreTable(score) else old(highScores))
    {
      FrameEnemies(ds);
      FrameEnd();
    }

    /** A frame of the playing phase: the timers, the player, the bullets, the enemies (a cleared
        board starts the next level), the edge drop, the power-ups, and game over once no life is
        left. */
    method PlayFrame(left: bool, right: bool, ds: seq<EnemyDraw>)
      requires Valid() && |ds| == |enemies| && ValidDraws(ds)
      modifies this
      ensures Valid()
      ensures playerX == Clamp(old(playerX) - (if left then PlayerSpeed else 0.0) + (if right then PlayerSpeed else 0.0), width)
      ensures bulletCooldown == if old(bulletCooldown) > 0.0 then old(bulletCooldown) - 1.0 else old(bulletCooldown)
      ensures level == old(level) + (if old(enemies) == [] then 1 else 0)
      ensures enemySpeed == if old(enemies) == [] then LevelFactor(level) else old(enemySpeed)
      ensures var c := Context(old(enemyDirection), width, height, PlayerBox(), old(isShielded));
              var w := After(Sweep(old(enemies), Flown(old(bullets)), old(powerUps), old(lives), old(score), false), 0, c, ds);
              var edge := exists k :: 0 <= k < |old(enemies)| && AtEdge(Moved(old(enemies)[k], old(enemyDirection)), width);
              var e := if old(enemies) == [] then Grid(level) else w.enemies;
              var timer := if old(rapidFireTimer) > 0 then old(rapidFireTimer) - FrameMillis else old(rapidFireTimer);
              var rapid := old(isRapidFire) && !(0 < old(rapidFireTimer) <= FrameMillis);
              bullets == w.bullets && lives == w.lives &&
              enemyDirection == (if edge then -old(enemyDirection) else old(enemyDirection)) &&
              enemies == (if edge then Dropped(e) else e) &&
              powerUps == Landed(w.powerUps, PlayerBox(), height) &&
              CurrentBoosts() == Collected(w.powerUps, PlayerBox(), Boosts(w.score, rapid, timer, old(isShielded)))
      ensures phase == (if lives <= 0 then GameOver else old(phase))
      ensures highScores == (if lives <= 0 then HighScoreTable(score) else old(highScores))
    {
      FrameStart(left, right);
      FrameRest(ds);
    }

    /** update: one frame; nothing happens outside the playing phase. */
    method Update(left: bool, right: bool, ds: seq<EnemyDraw>)
      requires Valid() && |ds| == |enemies| && ValidDraws(ds)
      modifies this
      ensures Valid()
      ensures old(phase) != Playing ==> unchanged(this)
      ensures old(phase) == Playing ==>
                playerX == Clamp(old(playerX) - (if left then PlayerSpeed else 0.0) + (if right then PlayerSpeed else 0.0), width) &&
                bulletCooldown == (if old(bulletCooldown) > 0.0 then old(bulletCooldown) - 1.0 else old(bulletCooldown)) &&
                level == old(level) + (if old(enemies) == [] then 1 else 0) &&
                enemySpeed == (if old(enemies) == [] then LevelFactor(level) else old(enemySpeed))
      ensures old(phase) == Playing ==>
                var c := Context(old(enemyDirection), width, height, PlayerBox(), old(isShielded));
                var w := After(Sweep(old(enemies), Flown(old(bullets)), old(powerUps), old(lives), old(score), false), 0, c, ds);
                var edge := exists k :: 0 <= k < |old(enemies)| && AtEdge(Moved(old(enemies)[k], old(enemyDirection)), width);
                var e := if old(enemies) == [] then Grid(level) else w.enemies;
                var timer := if old(rapidFireTimer) > 0 then old(rapidFireTimer) - FrameMillis else old(rapidFireTimer);
                var rapid := old(isRapidFire) && !(0 < old(rapidFireTimer) <= FrameMillis);
                bullets == w.bullets && lives == w.lives &&
                enemyDirection == (if edge then -old(enemyDirection) else old(enemyDirection)) &&
                enemies == (if edge then Dropped(e) else e) &&
                powerUps == Landed(w.powerUps, PlayerBox(), height) &&
                CurrentBoosts() == Collected(w.powerUps, PlayerBox(), Boosts(w.score, rapid, timer, old(isShielded))) &&
                phase == (if lives <= 0 then GameOver else Playing) &&
                highScores == (if lives <= 0 then HighScoreTable(score) else old(highScores))
    {
      if phase == Playing {
        PlayFrame(left, right, ds);
      }
    }
  }
}
