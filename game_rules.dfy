/** The rules of a game session in GameScreenView.swift, as functions from
    one session value to the next: the 16 ms world tick (spawning, motion,
    culling, timer pickups, the difficulty ramp), the collision pass, the
    one-second bomb countdown, `restartGame` and the player's inputs.
    GameScreen.GameScreenView carries out the same steps in place. */
module GameRules {
  import opened Geometry
  import opened Sequences
  import opened Entities

  const Dt: real := 0.016
  const MaxBombBubbles: nat := 3
  const MaxTimerBubbles: nat := 2
  const MaxSpikes: nat := 50
  /** Spikes and bomb bubbles are dropped once this far outside the screen. */
  const CullMargin: real := 100.0
  const BombInset: real := 40.0
  const SpikeInset: real := 50.0
  const TimerInset: real := 40.0
  const BombSpeed: real := 80.0
  const TimerSpeed: real := 1.5
  const PickupRadius: real := 50.0
  const SlowDuration: real := 5.0
  const SlowFactor: real := 0.4
  const BombDuration: real := 5.0
  const MaxSpawnInterval: real := 0.5
  const MinSpawnInterval: real := 0.02
  const BaseSpeed: real := 60.0
  const MaxSpeed: real := 600.0
  const PlayerStart: Point := Point(200.0, 500.0)
  /** The player bubble is drawn 130 points right of `bubblePosition`. */
  const PlayerDrawShift: real := 130.0

  /** The `@State` fields of GameScreenView that the simulation reads or
      writes. `bombTimerArmed` says whether the repeating bomb countdown
      timer is scheduled, `nextSpikeId` hands out spike identifiers and
      `fxPlays` counts calls of `fxMusic.play()`. */
  datatype Session = Session(
    spikes: seq<Spike>,
    bombBubbles: seq<BombBubble>,
    timerBubbles: seq<TimerBubble>,
    gameTime: real,
    lastSpikeSpawnTime: real,
    slowUntil: real,
    isBombActive: bool,
    bombRemainingTime: real,
    bombTimerArmed: bool,
    isGameStarted: bool,
    isPaused: bool,
    isGameOver: bool,
    showGameText: bool,
    bubblePosition: Point,
    dragOffset: Size,
    nextSpikeId: nat,
    fxPlays: nat)

  /** The values the fields are declared with. */
  const InitialSession: Session := Session(
    [], [], [], 0.0, 0.0, 0.0, false, 0.0, false,
    false, false, false, true, PlayerStart, ZeroSize, 0, 0)

  /** The random choices of one world tick. Integers are the drawn cases;
      reals are fractions of the range `CGFloat.random(in:)` draws from.
      `timerWindow` is the test `gameTime.truncatingRemainder(dividingBy: 2) < 0.016`. */
  datatype TickDraws = TickDraws(
    bombRoll: int,
    bombEdge: int,
    bombAlong: real,
    bombJitter: real,
    timerWindow: bool,
    timerEdge: int,
    timerAlong: real,
    timerAngle: real,
    timerPhase: real,
    spikeEdge: int,
    spikeAlong: real,
    spikeJitter: real,
    spikeSpeed: real)

  predicate ValidDraws(d: TickDraws)
  {
    Unit(d.bombAlong) && Unit(d.bombJitter) && Unit(d.timerAlong) && Unit(d.timerAngle) &&
    Unit(d.timerPhase) && Unit(d.spikeAlong) && Unit(d.spikeJitter) && Unit(d.spikeSpeed)
  }

  // ---------------------------------------------------------------- spawning

  datatype Launch = Launch(position: Point, direction: Vector)

  /** Off a screen edge, the direction points back across that edge. */
  predicate Inward(p: Point, v: Vector)
  {
    (p.x < 0.0 ==> v.dx > 0.0) && (p.x > Width ==> v.dx < 0.0) &&
    (p.y < 0.0 ==> v.dy > 0.0) && (p.y > Height ==> v.dy < 0.0)
  }

  /** The eight-way spawn switch shared by bomb bubbles (inset 40) and spikes
      (inset 50): four edges with a random offset along the edge and a random
      sideways component, four corners with a diagonal, and the `default`
      case of the switch. The direction is not yet normalised. */
  function EdgeLaunch(edge: int, inset: real, along: real, jitter: real): (r: Launch)
    requires inset > 0.0 && Unit(along) && Unit(jitter)
    ensures Abs(r.direction.dx) == 1.0 || Abs(r.direction.dy) == 1.0
    ensures !OnScreen(r.position) && WithinMargin(r.position, inset)
    ensures Inward(r.position, r.direction)
  {
    var y := Between(0.0, Height, along);
    var x := Between(0.0, Width, along);
    var side := Between(-0.5, 0.5, jitter);
    if edge == 0 then Launch(Point(-inset, y), Vector(1.0, side))
    else if edge == 1 then Launch(Point(Width + inset, y), Vector(-1.0, side))
    else if edge == 2 then Launch(Point(x, -inset), Vector(side, 1.0))
    else if edge == 3 then Launch(Point(x, Height + inset), Vector(side, -1.0))
    else if edge == 4 then Launch(Point(-inset, -inset), Vector(1.0, 1.0))
    else if edge == 5 then Launch(Point(Width + inset, -inset), Vector(-1.0, 1.0))
    else if edge == 6 then Launch(Point(-inset, Height + inset), Vector(1.0, -1.0))
    else if edge == 7 then Launch(Point(Width + inset, Height + inset), Vector(-1.0, -1.0))
    else Launch(Point(-inset, y), Vector(1.0, 0.0))
  }

  /** A direction with a component of size one has length at least one, so
      the division in `Normalize` is safe. */
  lemma LaunchMagnitude(v: Vector)
    requires Abs(v.dx) == 1.0 || Abs(v.dy) == 1.0
    ensures v.dx * v.dx + v.dy * v.dy >= 1.0
  {
    assert v.dx * v.dx >= 0.0 && v.dy * v.dy >= 0.0;
  }

  /** `dir / sqrt(dx * dx + dy * dy)`: the same direction, each component
      keeping its sign. */
  function Normalize(v: Vector, m: Math): (r: Vector)
    requires SqrtExact(m) && v.dx * v.dx + v.dy * v.dy >= 1.0
    ensures (r.dx > 0.0 <==> v.dx > 0.0) && (r.dx < 0.0 <==> v.dx < 0.0)
    ensures (r.dy > 0.0 <==> v.dy > 0.0) && (r.dy < 0.0 <==> v.dy < 0.0)
  {
    var q := v.dx * v.dx + v.dy * v.dy;
    var mag := m.sqrt(q);
    assert mag >= 0.0 && mag * mag == q;
    assert mag > 0.0;
    Vector(v.dx / mag, v.dy / mag)
  }

  /** A bomb bubble entering from one of the eight zones at 80 points/s. */
  function SpawnBomb(d: TickDraws, now: real, m: Math): (b: BombBubble)
    requires SqrtExact(m) && ValidDraws(d)
    ensures b.speed == BombSpeed && b.creationTime == now
    ensures Inward(b.position, b.direction)
    ensures !OnScreen(b.position) && WithinMargin(b.position, BombInset)
  {
    var l := EdgeLaunch(d.bombEdge, BombInset, d.bombAlong, d.bombJitter);
    LaunchMagnitude(l.direction);
    var dir := Normalize(l.direction, m);
    BombBubble(l.position, dir, m.atan2(dir.dy, dir.dx), BombSpeed, now)
  }

  /** The spike spawn interval `max(0.5 - 0.02 t, 0.02)`. */
  function SpawnInterval(t: real): (r: real)
    ensures MinSpawnInterval <= r
    ensures t >= 0.0 ==> r <= MaxSpawnInterval
    ensures t >= 24.0 ==> r == MinSpawnInterval
  {
    Max(MaxSpawnInterval - t * 0.02, MinSpawnInterval)
  }

  /** The interval never grows as the game goes on. */
  lemma SpawnIntervalNonIncreasing(t1: real, t2: real)
    requires t1 <= t2
    ensures SpawnInterval(t2) <= SpawnInterval(t1)
  {
  }

  /** The upper end of the spike speed range: 60 at the start, widening
      linearly to 600 over the first minute. */
  function SpeedCap(t: real): (r: real)
    ensures t >= 0.0 ==> BaseSpeed <= r <= MaxSpeed
    ensures t >= 60.0 ==> r == MaxSpeed
    ensures t <= 0.0 ==> r <= BaseSpeed
  {
    BaseSpeed + (MaxSpeed - BaseSpeed) * Min(1.0, t / 60.0)
  }

  lemma SpeedCapNonDecreasing(t1: real, t2: real)
    requires t1 <= t2
    ensures SpeedCap(t1) <= SpeedCap(t2)
  {
  }

  /** A spike entering from one of the eight zones, with a speed drawn from
      [60, SpeedCap(now)]. */
  function SpawnSpike(id: nat, d: TickDraws, now: real, m: Math): (k: Spike)
    requires SqrtExact(m) && ValidDraws(d)
    ensures k.id == id && k.creationTime == now
    ensures now >= 0.0 ==> BaseSpeed <= k.speed <= SpeedCap(now) <= MaxSpeed
    ensures Inward(k.position, k.direction)
    ensures !OnScreen(k.position) && WithinMargin(k.position, SpikeInset)
  {
    var l := EdgeLaunch(d.spikeEdge, SpikeInset, d.spikeAlong, d.spikeJitter);
    LaunchMagnitude(l.direction);
    var dir := Normalize(l.direction, m);
    Spike(id, l.position, dir, m.atan2(dir.dy, dir.dx), Between(BaseSpeed, SpeedCap(now), d.spikeSpeed), now)
  }

  /** A timer bubble on one of four edges, heading at an angle (in degrees)
      drawn from that edge's range; the `default` case of the switch leaves
      it at the origin with angle 0. */
  function SpawnTimer(d: TickDraws, m: Math): (b: TimerBubble)
    requires ValidDraws(d)
    ensures b.speed == TimerSpeed
    ensures 0 <= d.timerEdge < 4 ==> !OnScreen(b.position) && WithinMargin(b.position, TimerInset)
    ensures d.timerEdge == 0 ==> b.position.y < 0.0 && 20.0 <= b.angle <= 160.0
    ensures d.timerEdge == 1 ==> b.position.y > Height && 200.0 <= b.angle <= 340.0
    ensures d.timerEdge == 2 ==> b.position.x < 0.0 && 110.0 <= b.angle <= 250.0
    ensures d.timerEdge == 3 ==> b.position.x > Width && -70.0 <= b.angle <= 70.0
  {
    var phase := Between(0.0, 2.0 * m.pi, d.timerPhase);
    var x := Between(0.0, Width, d.timerAlong);
    var y := Between(0.0, Height, d.timerAlong);
    if d.timerEdge == 0 then TimerBubble(Point(x, -TimerInset), Between(20.0, 160.0, d.timerAngle), TimerSpeed, phase)
    else if d.timerEdge == 1 then TimerBubble(Point(x, Height + TimerInset), Between(200.0, 340.0, d.timerAngle), TimerSpeed, phase)
    else if d.timerEdge == 2 then TimerBubble(Point(-TimerInset, y), Between(110.0, 250.0, d.timerAngle), TimerSpeed, phase)
    else if d.timerEdge == 3 then TimerBubble(Point(Width + TimerInset, y), Between(-70.0, 70.0, d.timerAngle), TimerSpeed, phase)
    else TimerBubble(Point(0.0, 0.0), 0.0, TimerSpeed, phase)
  }

  // ------------------------------------------------------------------ motion

  /** One step of a hazard: along its direction at `speed * 0.016 * mult`,
      plus a sideways wobble `sin(age * 3 + angle) * 12 * 0.05`. */
  function Drift(p: Point, dir: Vector, speed: real, age: real, angle: real, mult: real, m: Math): Point
  {
    var wave := m.sin(age * 3.0 + angle) * 12.0;
    var x := p.x + dir.dx * speed * Dt * mult;
    var y := p.y + dir.dy * speed * Dt * mult;
    Point(x + (-dir.dy) * wave * 0.05, y + dir.dx * wave * 0.05)
  }

  function MoveBomb(b: BombBubble, now: real, m: Math): (r: BombBubble)
    ensures r.(position := b.position) == b
  {
    b.(position := Drift(b.position, b.direction, b.speed, now - b.creationTime, b.angle, 1.0, m))
  }

  function MoveSpike(k: Spike, now: real, mult: real, m: Math): (r: Spike)
    ensures r.(position := k.position) == k
  {
    k.(position := Drift(k.position, k.direction, k.speed, now - k.creationTime, k.angle, mult, m))
  }

  /** One step of a timer bubble: `speed` points along its angle plus the
      same wobble `sin(sineOffset + 2.5 t) * 2` on both axes; with sine and
      cosine bounded by one it moves at most `speed + 2` on each axis. */
  function MoveTimer(b: TimerBubble, now: real, m: Math): (r: TimerBubble)
    requires b.speed >= 0.0
    ensures r.(position := b.position) == b
    ensures SinCosBounded(m) ==>
      Abs(r.position.x - b.position.x) <= b.speed + 2.0 &&
      Abs(r.position.y - b.position.y) <= b.speed + 2.0
  {
    var rad := b.angle * m.pi / 180.0;
    var dx := m.cos(rad) * b.speed;
    var dy := m.sin(rad) * b.speed;
    var wobble := m.sin(b.sineOffset + now * 2.5) * 2.0;
    assert SinCosBounded(m) ==> Abs(dx) <= b.speed && Abs(dy) <= b.speed && Abs(wobble) <= 2.0 by {
      if SinCosBounded(m) {
        BoundedProduct(m.cos(rad), b.speed);
        BoundedProduct(m.sin(rad), b.speed);
      }
    }
    b.(position := Point(b.position.x + dx + wobble, b.position.y + dy + wobble))
  }

  lemma BoundedProduct(a: real, s: real)
    requires -1.0 <= a <= 1.0 && s >= 0.0
    ensures Abs(a * s) <= s
  {
    MulNonneg(1.0 - a, s);
    MulNonneg(1.0 + a, s);
  }

  function MoveBombs(bs: seq<BombBubble>, now: real, m: Math): seq<BombBubble>
  {
    seq(|bs|, i requires 0 <= i < |bs| => MoveBomb(bs[i], now, m))
  }

  function MoveSpikes(ks: seq<Spike>, now: real, mult: real, m: Math): seq<Spike>
  {
    seq(|ks|, i requires 0 <= i < |ks| => MoveSpike(ks[i], now, mult, m))
  }

  function MoveTimers(bs: seq<TimerBubble>, now: real, m: Math): seq<TimerBubble>
    requires forall i :: 0 <= i < |bs| ==> bs[i].speed >= 0.0
  {
    seq(|bs|, i requires 0 <= i < |bs| => MoveTimer(bs[i], now, m))
  }

  // ---------------------------------------------------------- tests on lists

  predicate BombInside(b: BombBubble, margin: real) { WithinMargin(b.position, margin) }
  predicate SpikeInside(k: Spike, margin: real) { WithinMargin(k.position, margin) }

  /** Not picked up: at least 50 points from the player's position
      (`hypot(dx, dy) < 50` compared as `dx * dx + dy * dy < 2500`). */
  predicate Uncollected(b: TimerBubble, player: Point)
  {
    !(DistSq(b.position, player) < PickupRadius * PickupRadius)
  }

  /** The spike speed multiplier: 0.4 inside the slow window, else 1. */
  function SpeedMultiplier(t: real, slowUntil: real): (r: real)
    ensures r == SlowFactor <==> t < slowUntil
    ensures r == 1.0 <==> t >= slowUntil
  {
    if t < slowUntil then SlowFactor else 1.0
  }

  // -------------------------------------------------------------- world tick

  predicate Active(s: Session)
  {
    s.isGameStarted && !s.isPaused && !s.isGameOver
  }

  /** Whether the bomb spawner fires this tick (`Int.random(in: 0...10) == 0`). */
  predicate BombDue(s: Session, d: TickDraws)
  {
    |s.bombBubbles| < MaxBombBubbles && d.bombRoll == 0
  }

  /** The bomb bubbles as they stand just before the off-screen cull. */
  function BombsBeforeCull(s: Session, d: TickDraws, m: Math): seq<BombBubble>
    requires SqrtExact(m) && ValidDraws(d)
  {
    var spawned := if BombDue(s, d) then s.bombBubbles + [SpawnBomb(d, s.gameTime, m)] else s.bombBubbles;
    MoveBombs(spawned, s.gameTime, m)
  }

  /** Bomb bubbles: maybe spawn one (1 in 11, below the cap), move all, cull. */
  function BombPhase(s: Session, d: TickDraws, m: Math): Session
    requires SqrtExact(m) && ValidDraws(d)
  {
    s.(bombBubbles := Keep(BombsBeforeCull(s, d, m), BombInside, CullMargin))
  }

  /** The timer bubbles as they stand just before the pickup test. */
  function TimersBeforePickup(s: Session, d: TickDraws, m: Math): seq<TimerBubble>
    requires ValidDraws(d)
    requires forall i :: 0 <= i < |s.timerBubbles| ==> s.timerBubbles[i].speed >= 0.0
  {
    var spawned := if |s.timerBubbles| < MaxTimerBubbles && d.timerWindow
                   then s.timerBubbles + [SpawnTimer(d, m)]
                   else s.timerBubbles;
    MoveTimers(spawned, s.gameTime, m)
  }

  /** Timer bubbles: maybe spawn one, move all, then remove every bubble
      within 50 points of `bubblePosition`, playing the sound once per
      bubble and opening a five-second slow window. */
  function TimerPhase(s: Session, d: TickDraws, m: Math): Session
    requires ValidDraws(d)
    requires forall i :: 0 <= i < |s.timerBubbles| ==> s.timerBubbles[i].speed >= 0.0
  {
    var moved := TimersBeforePickup(s, d, m);
    var kept := Keep(moved, Uncollected, s.bubblePosition);
    var caught := |moved| - |kept|;
    s.(timerBubbles := kept,
       slowUntil := if caught > 0 then s.gameTime + SlowDuration else s.slowUntil,
       fxPlays := s.fxPlays + caught)
  }

  /** Whether the spike spawner fires this tick. */
  predicate SpikeDue(s: Session)
  {
    s.gameTime - s.lastSpikeSpawnTime > SpawnInterval(s.gameTime) && |s.spikes| < MaxSpikes
  }

  /** The spikes as they stand just before the off-screen cull. */
  function SpikesBeforeCull(s: Session, d: TickDraws, m: Math): seq<Spike>
    requires SqrtExact(m) && ValidDraws(d)
  {
    var spawned := if SpikeDue(s) then s.spikes + [SpawnSpike(s.nextSpikeId, d, s.gameTime, m)] else s.spikes;
    MoveSpikes(spawned, s.gameTime, SpeedMultiplier(s.gameTime, s.slowUntil), m)
  }

  /** Spikes: maybe spawn one, move all at the slow-window multiplier, cull. */
  function SpikePhase(s: Session, d: TickDraws, m: Math): Session
    requires SqrtExact(m) && ValidDraws(d)
  {
    var due := SpikeDue(s);
    s.(spikes := Keep(SpikesBeforeCull(s, d, m), SpikeInside, CullMargin),
       lastSpikeSpawnTime := if due then s.gameTime else s.lastSpikeSpawnTime,
       nextSpikeId := if due then s.nextSpikeId + 1 else s.nextSpikeId)
  }

  /** The world tick: nothing unless the game is running; otherwise the
      clock advances by 0.016 and the three phases run in source order. */
  function WorldTick(s: Session, d: TickDraws, m: Math): (r: Session)
    requires SqrtExact(m) && ValidDraws(d)
    requires forall i :: 0 <= i < |s.timerBubbles| ==> s.timerBubbles[i].speed >= 0.0
    ensures !Active(s) ==> r == s
    ensures Active(s) ==> r.gameTime == s.gameTime + Dt
  {
    if !Active(s) then s
    else
      var s1 := BombPhase(s.(gameTime := s.gameTime + Dt), d, m);
      SpikePhase(TimerPhase(s1, d, m), d, m)
  }

  /** The session states a player sees. */
  datatype Phase = Idle | Playing | Paused | Over

  function PhaseOf(s: Session): Phase
  {
    if s.isGameOver then Over
    else if !s.isGameStarted then Idle
    else if s.isPaused then Paused
    else Playing
  }

  // ---------------------------------------------------------- collision pass

  /** Where the player bubble is drawn: 130 points right of `bubblePosition`,
      plus the drag offset. */
  function PlayerCentre(s: Session): Point
  {
    Point(PlayerDrawShift + s.bubblePosition.x + s.dragOffset.width,
          s.bubblePosition.y + s.dragOffset.height)
  }

  /** The player's 50x50 frame, centred on where the bubble is drawn. */
  function PlayerFrame(s: Session): Rect
  {
    Rect(PlayerDrawShift + s.bubblePosition.x + s.dragOffset.width - 25.0,
         s.bubblePosition.y + s.dragOffset.height - 25.0, 50.0, 50.0)
  }

  function SpikeFrame(k: Spike): Rect { Rect(k.position.x - 25.0, k.position.y - 25.0, 50.0, 50.0) }
  function BombFrame(b: BombBubble): Rect { Rect(b.position.x - 20.0, b.position.y - 20.0, 40.0, 40.0) }

  predicate SpikeMisses(k: Spike, player: Rect) { !Intersects(player, SpikeFrame(k)) }
  predicate BombMisses(b: BombBubble, player: Rect) { !Intersects(player, BombFrame(b)) }

  predicate AnyHit(ks: seq<Spike>, player: Rect)
  {
    exists i :: 0 <= i < |ks| && !SpikeMisses(ks[i], player)
  }

  /** The spike loop of the collision pass: while bomb-active every spike
      touching the player is destroyed; without a bomb a touching spike ends
      the game (one sound, spikes left as they are). */
  function SpikeCollisions(s: Session, frame: Rect): Session
  {
    if s.isBombActive then s.(spikes := Keep(s.spikes, SpikeMisses, frame))
    else if AnyHit(s.spikes, frame) then s.(isGameOver := true, isGameStarted := false, fxPlays := s.fxPlays + 1)
    else s
  }

  /** The bomb-bubble loop: every bomb bubble touching the player is
      consumed, making the player bomb-active for 5 s and re-arming the
      countdown. */
  function BombCollisions(s: Session, frame: Rect): Session
  {
    var kept := Keep(s.bombBubbles, BombMisses, frame);
    if |kept| < |s.bombBubbles| then
      s.(bombBubbles := kept, isBombActive := true, bombRemainingTime := BombDuration, bombTimerArmed := true)
    else s
  }

  /** The collision pass: nothing once the game is over, otherwise the spike
      loop and then the bomb-bubble loop, both against the player's frame. */
  function CollisionPass(s: Session): Session
  {
    if s.isGameOver then s
    else BombCollisions(SpikeCollisions(s, PlayerFrame(s)), PlayerFrame(s))
  }

  /** One firing of the one-second bomb timer, if it is scheduled. */
  function BombCountdown(s: Session): (r: Session)
    ensures !s.bombTimerArmed ==> r == s
    ensures s.bombTimerArmed ==> r.bombRemainingTime == s.bombRemainingTime - 1.0
    ensures s.bombTimerArmed ==>
      (r.isBombActive <==> s.isBombActive && r.bombRemainingTime > 0.0) &&
      (r.bombTimerArmed <==> r.bombRemainingTime > 0.0)
    ensures r.(bombRemainingTime := s.bombRemainingTime, isBombActive := s.isBombActive,
               bombTimerArmed := s.bombTimerArmed) == s
  {
    if !s.bombTimerArmed then s
    else
      var left := s.bombRemainingTime - 1.0;
      if left <= 0.0 then s.(bombRemainingTime := left, isBombActive := false, bombTimerArmed := false)
      else s.(bombRemainingTime := left)
  }

  function CountdownSteps(s: Session, n: nat): Session
  {
    if n == 0 then s else BombCountdown(CountdownSteps(s, n - 1))
  }

  // --------------------------------------------------------- restart, input

  /** `restartGame`: back to the start position with empty hazard lists and
      cleared clocks and flags. The timer bubbles and the slow window are
      left as they were. */
  function Restart(s: Session): Session
  {
    s.(bubblePosition := PlayerStart, dragOffset := ZeroSize, isGameStarted := false,
       showGameText := true, spikes := [], bombBubbles := [], isBombActive := false,
       bombTimerArmed := false, bombRemainingTime := 0.0, gameTime := 0.0,
       lastSpikeSpawnTime := 0.0, isPaused := false, isGameOver := false)
  }

  /** The player bubble, and so its drag and tap gestures, is on screen only
      while the game is neither over nor paused. */
  predicate PlayerShown(s: Session) { !s.isGameOver && !s.isPaused }

  function Start(s: Session): Session
  {
    if !s.isGameStarted then s.(isGameStarted := true, showGameText := false) else s
  }

  /** A drag moves the bubble by the gesture's translation and starts the game. */
  function DragChanged(s: Session, translation: Size): Session
  {
    if !PlayerShown(s) then s else Start(s).(dragOffset := translation)
  }

  /** The end of a drag folds the offset into the position. */
  function DragEnded(s: Session): Session
  {
    if !PlayerShown(s) then s
    else s.(bubblePosition := Point(s.bubblePosition.x + s.dragOffset.width,
                                    s.bubblePosition.y + s.dragOffset.height),
            dragOffset := ZeroSize)
  }

  function Tap(s: Session): Session
  {
    if !PlayerShown(s) then s else Start(s)
  }

  /** The pause button exists only once the game has started. */
  function TogglePause(s: Session): Session
  {
    if s.isGameStarted then s.(isPaused := !s.isPaused) else s
  }
}
