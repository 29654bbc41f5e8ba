/** What the session rules of GameRules guarantee: the invariant every
    reachable session keeps, what one tick, one collision pass and one
    countdown step do, and the Idle / Playing / Paused / Over state machine. */
module GameProperties {
  import opened Geometry
  import opened Sequences
  import opened Entities
  import opened GameRules

  ghost predicate SpikeOk(k: Spike, next: nat)
  {
    k.id < next && SpikeInside(k, CullMargin) && BaseSpeed <= k.speed <= MaxSpeed
  }

  ghost predicate BombOk(b: BombBubble)
  {
    BombInside(b, CullMargin) && b.speed == BombSpeed
  }

  /** Spikes have identifiers below the counter, in increasing order (so no
      two share one), lie inside the cull box and have a speed in [60, 600]. */
  ghost predicate SpikesOk(ks: seq<Spike>, next: nat)
  {
    (forall i :: 0 <= i < |ks| ==> SpikeOk(ks[i], next)) &&
    IdsIncreasing(ks)
  }

  /** The invariant of every session the game can reach. */
  ghost predicate Invariant(s: Session)
  {
    s.gameTime >= 0.0 &&
    |s.spikes| <= MaxSpikes && |s.bombBubbles| <= MaxBombBubbles &&
    |s.timerBubbles| <= MaxTimerBubbles &&
    SpikesOk(s.spikes, s.nextSpikeId) &&
    (forall i :: 0 <= i < |s.bombBubbles| ==> BombOk(s.bombBubbles[i])) &&
    (forall i :: 0 <= i < |s.timerBubbles| ==> s.timerBubbles[i].speed == TimerSpeed) &&
    (PhaseOf(s) == Idle ==> !s.isPaused)
  }

  lemma InitialSessionInvariant()
    ensures Invariant(InitialSession) && PhaseOf(InitialSession) == Idle
  {
  }

  // -------------------------------------------------------------- world tick

  /** Culling keeps a spike list well formed. */
  lemma KeepSpikesOk(ks: seq<Spike>, next: nat)
    requires forall i :: 0 <= i < |ks| ==> ks[i].id < next && BaseSpeed <= ks[i].speed <= MaxSpeed
    requires IdsIncreasing(ks)
    ensures SpikesOk(Keep(ks, SpikeInside, CullMargin), next)
  {
    var r := Keep(ks, SpikeInside, CullMargin);
    KeepIsSubsequence(ks, SpikeInside, CullMargin);
    SubsequencePairwise(r, ks, IdBefore);
    KeepMembers(ks, SpikeInside, CullMargin);
    forall i | 0 <= i < |r| ensures SpikeOk(r[i], next) {
      assert r[i] in r;
      var j :| 0 <= j < |ks| && ks[j] == r[i];
    }
  }

  /** A spike appended with a larger identifier keeps the order. */
  lemma AppendKeepsIdsIncreasing(ks: seq<Spike>, k: Spike)
    requires IdsIncreasing(ks)
    requires forall i :: 0 <= i < |ks| ==> ks[i].id < k.id
    ensures IdsIncreasing(ks + [k])
  {
    var r := ks + [k];
    forall a, b | 0 <= a < b < |r| ensures IdBefore(r[a], r[b]) {
      if b < |ks| {
        assert IdBefore(ks[a], ks[b]);
      }
    }
  }

  /** Moving spikes leaves their identifiers, hence their order, alone. */
  lemma SameIdsKeepIdsIncreasing(ks: seq<Spike>, r: seq<Spike>)
    requires IdsIncreasing(ks) && |r| == |ks|
    requires forall i :: 0 <= i < |r| ==> r[i].id == ks[i].id
    ensures IdsIncreasing(r)
  {
    forall a, b | 0 <= a < b < |r| ensures IdBefore(r[a], r[b]) {
      assert IdBefore(ks[a], ks[b]);
    }
  }

  /** Before the cull, the spikes (the old ones and the one maybe spawned,
      all moved) have identifiers below the new counter, in increasing order,
      and speeds in [60, 600]. */
  lemma SpikesBeforeCullOk(s: Session, d: TickDraws, m: Math)
    requires SpikesOk(s.spikes, s.nextSpikeId) && s.gameTime >= 0.0
    requires ValidDraws(d) && SqrtExact(m)
    ensures var ks := SpikesBeforeCull(s, d, m); var next := SpikePhase(s, d, m).nextSpikeId;
      (forall i :: 0 <= i < |ks| ==> ks[i].id < next && BaseSpeed <= ks[i].speed <= MaxSpeed) &&
      IdsIncreasing(ks)
  {
    var spawned := if SpikeDue(s) then s.spikes + [SpawnSpike(s.nextSpikeId, d, s.gameTime, m)] else s.spikes;
    var next := SpikePhase(s, d, m).nextSpikeId;
    if SpikeDue(s) {
      AppendKeepsIdsIncreasing(s.spikes, SpawnSpike(s.nextSpikeId, d, s.gameTime, m));
    }
    assert forall i :: 0 <= i < |spawned| ==> spawned[i].id < next && BaseSpeed <= spawned[i].speed <= MaxSpeed;
    var moved := SpikesBeforeCull(s, d, m);
    assert moved == MoveSpikes(spawned, s.gameTime, SpeedMultiplier(s.gameTime, s.slowUntil), m);
    assert forall i :: 0 <= i < |moved| ==> moved[i].id == spawned[i].id && moved[i].speed == spawned[i].speed;
    SameIdsKeepIdsIncreasing(spawned, moved);
  }

  lemma SpikePhaseKeepsInvariant(s: Session, d: TickDraws, m: Math)
    requires Invariant(s) && ValidDraws(d) && SqrtExact(m)
    ensures Invariant(SpikePhase(s, d, m))
  {
    var r := SpikePhase(s, d, m);
    SpikesBeforeCullOk(s, d, m);
    KeepSpikesOk(SpikesBeforeCull(s, d, m), r.nextSpikeId);
    assert |r.spikes| <= MaxSpikes by {
      assert |r.spikes| <= |SpikesBeforeCull(s, d, m)|;
    }
  }

  lemma BombPhaseKeepsInvariant(s: Session, d: TickDraws, m: Math)
    requires Invariant(s) && ValidDraws(d) && SqrtExact(m)
    ensures Invariant(BombPhase(s, d, m))
  {
    var spawned := if BombDue(s, d) then s.bombBubbles + [SpawnBomb(d, s.gameTime, m)] else s.bombBubbles;
    assert forall i :: 0 <= i < |spawned| ==> spawned[i].speed == BombSpeed;
    var moved := BombsBeforeCull(s, d, m);
    assert moved == MoveBombs(spawned, s.gameTime, m);
    assert forall i :: 0 <= i < |moved| ==> moved[i].speed == BombSpeed;
    var r := Keep(moved, BombInside, CullMargin);
    KeepMembers(moved, BombInside, CullMargin);
    forall i | 0 <= i < |r| ensures BombOk(r[i]) {
      assert r[i] in r;
    }
  }

  /** Spawned and moved, timer bubbles keep their speed and their cap. */
  lemma TimersBeforePickupOk(s: Session, d: TickDraws, m: Math)
    requires Invariant(s) && ValidDraws(d)
    ensures var before := TimersBeforePickup(s, d, m);
      |before| <= MaxTimerBubbles && forall i :: 0 <= i < |before| ==> before[i].speed == TimerSpeed
  {
    var before := TimersBeforePickup(s, d, m);
    assert forall i :: 0 <= i < |before| ==> before[i].speed == TimerSpeed;
  }

  lemma TimerPhaseKeepsInvariant(s: Session, d: TickDraws, m: Math)
    requires Invariant(s) && ValidDraws(d)
    ensures Invariant(TimerPhase(s, d, m))
  {
    var before := TimersBeforePickup(s, d, m);
    TimersBeforePickupOk(s, d, m);
    var r := Keep(before, Uncollected, s.bubblePosition);
    KeepMembers(before, Uncollected, s.bubblePosition);
    forall i | 0 <= i < |r| ensures r[i].speed == TimerSpeed {
      assert r[i] in r;
    }
  }

  lemma WorldTickKeepsInvariant(s: Session, d: TickDraws, m: Math)
    requires Invariant(s) && ValidDraws(d) && SqrtExact(m)
    ensures Invariant(WorldTick(s, d, m))
  {
    if Active(s) {
      var s0 := s.(gameTime := s.gameTime + Dt);
      BombPhaseKeepsInvariant(s0, d, m);
      var s1 := BombPhase(s0, d, m);
      TimerPhaseKeepsInvariant(s1, d, m);
      var s2 := TimerPhase(s1, d, m);
      SpikePhaseKeepsInvariant(s2, d, m);
    }
  }

  /** Each spawner adds at most one entity, and none once its list is at the
      cap; so the caps 3, 2 and 50 hold after every tick. */
  lemma WorldTickRespectsCaps(s: Session, d: TickDraws, m: Math)
    requires ValidDraws(d) && SqrtExact(m)
    requires forall i :: 0 <= i < |s.timerBubbles| ==> s.timerBubbles[i].speed >= 0.0
    ensures var r := WorldTick(s, d, m);
      |r.bombBubbles| <= |s.bombBubbles| + 1 &&
      |r.timerBubbles| <= |s.timerBubbles| + 1 &&
      |r.spikes| <= |s.spikes| + 1 &&
      (|s.bombBubbles| >= MaxBombBubbles ==> |r.bombBubbles| <= |s.bombBubbles|) &&
      (|s.timerBubbles| >= MaxTimerBubbles ==> |r.timerBubbles| <= |s.timerBubbles|) &&
      (|s.spikes| >= MaxSpikes ==> |r.spikes| <= |s.spikes|) &&
      (|s.bombBubbles| <= MaxBombBubbles ==> |r.bombBubbles| <= MaxBombBubbles) &&
      (|s.timerBubbles| <= MaxTimerBubbles ==> |r.timerBubbles| <= MaxTimerBubbles) &&
      (|s.spikes| <= MaxSpikes ==> |r.spikes| <= MaxSpikes)
  {
  }

  /** A spike is spawned at most once per tick, exactly when the spawn
      interval has passed below the cap, and then with a fresh identifier
      and the current time as its last spawn time. */
  lemma SpikeSpawnCadence(s: Session, d: TickDraws, m: Math)
    requires ValidDraws(d) && SqrtExact(m) && s.gameTime >= 0.0
    ensures var r := SpikePhase(s, d, m);
      (SpikeDue(s) <==> r.nextSpikeId == s.nextSpikeId + 1) &&
      (SpikeDue(s) ==> r.lastSpikeSpawnTime == s.gameTime && MinSpawnInterval <= SpawnInterval(s.gameTime) <= MaxSpawnInterval) &&
      (!SpikeDue(s) ==> r.nextSpikeId == s.nextSpikeId && r.lastSpikeSpawnTime == s.lastSpikeSpawnTime)
    ensures SpikeDue(s) ==>
      var k := SpikesBeforeCull(s, d, m)[|s.spikes|];
      k.id == s.nextSpikeId && k.creationTime == s.gameTime &&
      BaseSpeed <= k.speed <= SpeedCap(s.gameTime) <= MaxSpeed
  {
  }

  /** The off-screen cull keeps exactly the hazards inside the 100-point
      margin box, in their order. */
  lemma CullKeepsInsideInOrder(s: Session, d: TickDraws, m: Math)
    requires ValidDraws(d) && SqrtExact(m)
    ensures var r := SpikePhase(s, d, m); var before := SpikesBeforeCull(s, d, m);
      IsSubsequence(r.spikes, before) &&
      (forall k :: k in r.spikes ==> WithinMargin(k.position, CullMargin)) &&
      (forall k :: k in before && WithinMargin(k.position, CullMargin) ==> k in r.spikes)
    ensures var r := BombPhase(s, d, m); var before := BombsBeforeCull(s, d, m);
      IsSubsequence(r.bombBubbles, before) &&
      (forall b :: b in r.bombBubbles ==> WithinMargin(b.position, CullMargin)) &&
      (forall b :: b in before && WithinMargin(b.position, CullMargin) ==> b in r.bombBubbles)
  {
    KeepIsSubsequence(SpikesBeforeCull(s, d, m), SpikeInside, CullMargin);
    KeepMembers(SpikesBeforeCull(s, d, m), SpikeInside, CullMargin);
    KeepIsSubsequence(BombsBeforeCull(s, d, m), BombInside, CullMargin);
    KeepMembers(BombsBeforeCull(s, d, m), BombInside, CullMargin);
  }

  /** Whether some timer bubble is within 50 points of the player. */
  predicate AnyPickedUp(bs: seq<TimerBubble>, player: Point)
  {
    exists i :: 0 <= i < |bs| && !Uncollected(bs[i], player)
  }

  /** Timer pickup removes exactly the bubbles within 50 points of
      `bubblePosition` and keeps the rest in their order. */
  lemma TimerPickupKeepsFarBubbles(s: Session, d: TickDraws, m: Math)
    requires ValidDraws(d)
    requires forall i :: 0 <= i < |s.timerBubbles| ==> s.timerBubbles[i].speed >= 0.0
    ensures var kept := TimerPhase(s, d, m).timerBubbles; var before := TimersBeforePickup(s, d, m);
      IsSubsequence(kept, before) &&
      (forall b :: b in kept ==> DistSq(b.position, s.bubblePosition) >= PickupRadius * PickupRadius) &&
      (forall b :: b in before && DistSq(b.position, s.bubblePosition) >= PickupRadius * PickupRadius ==> b in kept)
  {
    KeepIsSubsequence(TimersBeforePickup(s, d, m), Uncollected, s.bubblePosition);
    KeepMembers(TimersBeforePickup(s, d, m), Uncollected, s.bubblePosition);
  }

  /** Each bubble taken plays the sound once; if any was taken the slow
      window runs for five seconds from now and spikes move at 0.4 at once,
      otherwise the window and the sound count are untouched. */
  lemma TimerPickupSlowsSpikes(s: Session, d: TickDraws, m: Math)
    requires ValidDraws(d)
    requires forall i :: 0 <= i < |s.timerBubbles| ==> s.timerBubbles[i].speed >= 0.0
    ensures var r := TimerPhase(s, d, m); var before := TimersBeforePickup(s, d, m);
      r.fxPlays == s.fxPlays + |before| - |r.timerBubbles| &&
      (AnyPickedUp(before, s.bubblePosition) ==>
         r.slowUntil == s.gameTime + SlowDuration && SpeedMultiplier(r.gameTime, r.slowUntil) == SlowFactor) &&
      (!AnyPickedUp(before, s.bubblePosition) ==>
         r.slowUntil == s.slowUntil && r.fxPlays == s.fxPlays && r.timerBubbles == before)
  {
    var before := TimersBeforePickup(s, d, m);
    KeepShrinksIff(before, Uncollected, s.bubblePosition);
  }

  /** Timer bubbles leave only by pickup: every bubble far from the player
      survives the tick, wherever it has drifted to. */
  lemma TimerBubblesAreNeverCulled(s: Session, d: TickDraws, m: Math, b: TimerBubble)
    requires ValidDraws(d)
    requires forall i :: 0 <= i < |s.timerBubbles| ==> s.timerBubbles[i].speed >= 0.0
    requires b in TimersBeforePickup(s, d, m) && Uncollected(b, s.bubblePosition)
    ensures b in TimerPhase(s, d, m).timerBubbles
  {
    KeepMembers(TimersBeforePickup(s, d, m), Uncollected, s.bubblePosition);
  }

  /** The pickup test measures from `bubblePosition`, not from where the
      bubble is drawn: a timer bubble right on the drawn bubble, with no drag
      in progress, is not picked up. */
  lemma PickupIgnoresDrawShift(s: Session, b: TimerBubble)
    requires s.dragOffset == ZeroSize
    requires b.position == Point(PlayerDrawShift + s.bubblePosition.x, s.bubblePosition.y)
    ensures Uncollected(b, s.bubblePosition)
    ensures Intersects(PlayerFrame(s), Rect(b.position.x - 25.0, b.position.y - 25.0, 50.0, 50.0))
  {
  }

  // ---------------------------------------------------------- collision pass

  /** The three frames of the collision pass are squares centred on the
      player's drawn position, the spike and the bomb bubble. */
  lemma FramesAreCentredSquares(s: Session, k: Spike, b: BombBubble)
    ensures PlayerFrame(s) == Square(PlayerCentre(s), 50.0)
    ensures SpikeFrame(k) == Square(k.position, 50.0)
    ensures BombFrame(b) == Square(b.position, 40.0)
  {
  }

  /** So a spike touches the player exactly when its centre is less than 50
      points from the player's drawn centre on both axes, and a bomb bubble
      exactly when it is less than 45. */
  lemma HitsAreCentreDistances(s: Session, k: Spike, b: BombBubble)
    ensures !SpikeMisses(k, PlayerFrame(s)) <==>
      Abs(PlayerCentre(s).x - k.position.x) < 50.0 && Abs(PlayerCentre(s).y - k.position.y) < 50.0
    ensures !BombMisses(b, PlayerFrame(s)) <==>
      Abs(PlayerCentre(s).x - b.position.x) < 45.0 && Abs(PlayerCentre(s).y - b.position.y) < 45.0
  {
    FramesAreCentredSquares(s, k, b);
    SquaresIntersect(PlayerCentre(s), 50.0, k.position, 50.0);
    SquaresIntersect(PlayerCentre(s), 50.0, b.position, 40.0);
  }

  /** Without a bomb, a spike touching the player ends the game: one sound,
      the flags flip, and the spikes stay as they are. */
  lemma LethalHitEndsGame(s: Session)
    requires !s.isGameOver && !s.isBombActive && AnyHit(s.spikes, PlayerFrame(s))
    ensures var r := CollisionPass(s);
      r.isGameOver && !r.isGameStarted && r.spikes == s.spikes &&
      r.fxPlays == s.fxPlays + 1 && PhaseOf(r) == Over
  {
  }

  /** Only a lethal hit ends a game in a collision pass. */
  lemma GameEndsOnlyByLethalHit(s: Session)
    requires !s.isGameOver && CollisionPass(s).isGameOver
    ensures !s.isBombActive && AnyHit(s.spikes, PlayerFrame(s))
  {
  }

  /** A paused session whose one spike sits on the player's start position,
      as a world tick can leave it just before the pause button is pressed. */
  const PausedOnSpike: Session :=
    InitialSession.(isGameStarted := true, isPaused := true, showGameText := false, nextSpikeId := 1,
                    spikes := [Spike(0, Point(PlayerDrawShift + PlayerStart.x, PlayerStart.y), Vector(1.0, 0.0), 0.0, BaseSpeed, 0.0)])

  /** The collision pass is guarded by game over alone, so it also runs while
      the game is paused: a reachable paused session can end in a collision. */
  lemma PausedGameCanEnd()
    ensures var s := PausedOnSpike; var r := CollisionPass(s);
      Invariant(s) && PhaseOf(s) == Paused && PhaseOf(r) == Over && r.fxPlays == s.fxPlays + 1
  {
    var s := PausedOnSpike;
    assert !SpikeMisses(s.spikes[0], PlayerFrame(s));
    assert IdsIncreasing(s.spikes);
  }

  /** While paused, the collision pass ends the game exactly when the player
      is not bomb-active and some spike touches the player's frame. */
  lemma PausedCollisionEndsGameIff(s: Session)
    requires PhaseOf(s) == Paused
    ensures PhaseOf(CollisionPass(s)) == Over <==> !s.isBombActive && AnyHit(s.spikes, PlayerFrame(s))
  {
  }

  /** While bomb-active, exactly the spikes touching the player are destroyed
      and the session goes on. */
  lemma BombActiveDestroysTouchingSpikes(s: Session)
    requires !s.isGameOver && s.isBombActive
    ensures var r := CollisionPass(s);
      !r.isGameOver && r.isGameStarted == s.isGameStarted && r.fxPlays == s.fxPlays &&
      IsSubsequence(r.spikes, s.spikes) &&
      (forall k :: k in r.spikes ==> !Intersects(PlayerFrame(s), SpikeFrame(k))) &&
      (forall k :: k in s.spikes && !Intersects(PlayerFrame(s), SpikeFrame(k)) ==> k in r.spikes)
  {
    KeepIsSubsequence(s.spikes, SpikeMisses, PlayerFrame(s));
    KeepMembers(s.spikes, SpikeMisses, PlayerFrame(s));
  }

  lemma BombCollisionsKeepMisses(t: Session, f: Rect)
    ensures var r := BombCollisions(t, f);
      IsSubsequence(r.bombBubbles, t.bombBubbles) &&
      (forall b :: b in r.bombBubbles ==> BombMisses(b, f)) &&
      (forall b :: b in t.bombBubbles && BombMisses(b, f) ==> b in r.bombBubbles)
  {
    KeepIsSubsequence(t.bombBubbles, BombMisses, f);
    KeepMembers(t.bombBubbles, BombMisses, f);
    KeepShrinksIff(t.bombBubbles, BombMisses, f);
  }

  /** Every bomb bubble touching the player is consumed and the others
      stay, in their order. */
  lemma BombPickupConsumesTouching(s: Session)
    requires !s.isGameOver
    ensures var r := CollisionPass(s); var f := PlayerFrame(s);
      IsSubsequence(r.bombBubbles, s.bombBubbles) &&
      (forall b :: b in r.bombBubbles ==> !Intersects(f, BombFrame(b))) &&
      (forall b :: b in s.bombBubbles && !Intersects(f, BombFrame(b)) ==> b in r.bombBubbles)
  {
    var f := PlayerFrame(s);
    var t := SpikeCollisions(s, f);
    assert t.bombBubbles == s.bombBubbles;
    BombCollisionsKeepMisses(t, f);
  }

  /** If a bomb bubble was touched the player is bomb-active with exactly
      five seconds left and the countdown armed, whatever it stood at;
      otherwise the bomb state is untouched. */
  lemma BombPickupResetsCountdown(s: Session)
    requires !s.isGameOver
    ensures var r := CollisionPass(s); var f := PlayerFrame(s);
      ((exists i :: 0 <= i < |s.bombBubbles| && !BombMisses(s.bombBubbles[i], f)) ==>
         r.isBombActive && r.bombRemainingTime == BombDuration && r.bombTimerArmed) &&
      ((forall i :: 0 <= i < |s.bombBubbles| ==> BombMisses(s.bombBubbles[i], f)) ==>
         r.isBombActive == s.isBombActive && r.bombRemainingTime == s.bombRemainingTime &&
         r.bombTimerArmed == s.bombTimerArmed && r.bombBubbles == s.bombBubbles)
  {
    KeepShrinksIff(s.bombBubbles, BombMisses, PlayerFrame(s));
  }

  lemma SpikeCollisionsKeepInvariant(s: Session, f: Rect)
    requires Invariant(s) && !s.isGameOver
    ensures Invariant(SpikeCollisions(s, f))
  {
    if s.isBombActive {
      KeepIsSubsequence(s.spikes, SpikeMisses, f);
      SubsequencePairwise(Keep(s.spikes, SpikeMisses, f), s.spikes, IdBefore);
    }
  }

  lemma BombCollisionsKeepInvariant(s: Session, f: Rect)
    requires Invariant(s)
    ensures Invariant(BombCollisions(s, f))
  {
    var bs := Keep(s.bombBubbles, BombMisses, f);
    KeepMembers(s.bombBubbles, BombMisses, f);
    forall i | 0 <= i < |bs| ensures BombOk(bs[i]) {
      assert bs[i] in bs;
    }
  }

  lemma CollisionPassKeepsInvariant(s: Session)
    requires Invariant(s)
    ensures Invariant(CollisionPass(s))
  {
    if !s.isGameOver {
      SpikeCollisionsKeepInvariant(s, PlayerFrame(s));
      BombCollisionsKeepInvariant(SpikeCollisions(s, PlayerFrame(s)), PlayerFrame(s));
    }
  }

  // ---------------------------------------------------------- bomb countdown

  /** After a pickup the bomb lasts four firings of the one-second timer and
      ends on the fifth, which also cancels the timer. */
  lemma BombLastsFiveFirings(s: Session)
    requires s.isBombActive && s.bombTimerArmed && s.bombRemainingTime == BombDuration
    ensures CountdownSteps(s, 4).isBombActive && CountdownSteps(s, 4).bombRemainingTime == 1.0
    ensures !CountdownSteps(s, 5).isBombActive && !CountdownSteps(s, 5).bombTimerArmed
    ensures CountdownSteps(s, 6) == CountdownSteps(s, 5)
  {
    assert CountdownSteps(s, 1).bombRemainingTime == 4.0;
    assert CountdownSteps(s, 2).bombRemainingTime == 3.0;
    assert CountdownSteps(s, 3).bombRemainingTime == 2.0;
  }

  // ------------------------------------------------- restart, state machine

  /** Restart returns to Idle and keeps the invariant. The timer bubbles
      and the slow window survive it. */
  lemma RestartReturnsToIdle(s: Session)
    requires Invariant(s)
    ensures var r := Restart(s);
      Invariant(r) && PhaseOf(r) == Idle && r.spikes == [] && r.bombBubbles == [] &&
      r.timerBubbles == s.timerBubbles && r.slowUntil == s.slowUntil
  {
  }

  /** As written, `slowUntil` survives a restart while the clock goes back to
      0, so any window ending after the first tick, even one that closed long
      before the restart, slows the first tick of the next game. */
  lemma RestartKeepsSlowWindow(s: Session)
    requires s.slowUntil > Dt
    ensures SpeedMultiplier(Restart(s).gameTime + Dt, Restart(s).slowUntil) == SlowFactor
  {
  }

  /** The first drag or tap on an idle bubble starts the game. */
  lemma FirstInputStartsGame(s: Session, translation: Size)
    requires PhaseOf(s) == Idle && !s.isPaused
    ensures PhaseOf(DragChanged(s, translation)) == Playing && !DragChanged(s, translation).showGameText
    ensures PhaseOf(Tap(s)) == Playing && !Tap(s).showGameText
  {
  }

  /** The pause button flips between Playing and Paused and is its own inverse. */
  lemma PauseToggles(s: Session)
    ensures PhaseOf(s) == Playing ==> PhaseOf(TogglePause(s)) == Paused
    ensures PhaseOf(s) == Paused ==> PhaseOf(TogglePause(s)) == Playing
    ensures TogglePause(TogglePause(s)) == s
  {
  }

  /** Ending a drag does not move the bubble on screen: the offset is folded
      into the position, so the collision frame stays where it was. */
  lemma DragEndKeepsFrame(s: Session)
    ensures PlayerFrame(DragEnded(s)) == PlayerFrame(s)
  {
  }

  /** Game over is left only by restarting: every other event keeps it. */
  lemma GameOverIsTerminal(s: Session, d: TickDraws, m: Math, translation: Size)
    requires PhaseOf(s) == Over && ValidDraws(d) && SqrtExact(m)
    requires forall i :: 0 <= i < |s.timerBubbles| ==> s.timerBubbles[i].speed >= 0.0
    ensures WorldTick(s, d, m) == s && CollisionPass(s) == s
    ensures DragChanged(s, translation) == s && DragEnded(s) == s && Tap(s) == s
    ensures PhaseOf(TogglePause(s)) == Over && PhaseOf(BombCountdown(s)) == Over
    ensures PhaseOf(Restart(s)) == Idle
  {
  }

  /** The world tick never ends a game. */
  lemma WorldTickNeverEndsGame(s: Session, d: TickDraws, m: Math)
    requires ValidDraws(d) && SqrtExact(m)
    requires forall i :: 0 <= i < |s.timerBubbles| ==> s.timerBubbles[i].speed >= 0.0
    ensures WorldTick(s, d, m).isGameOver == s.isGameOver
    ensures WorldTick(s, d, m).isGameStarted == s.isGameStarted
  {
  }

  /** The countdown, the drag, the tap and the pause button each keep the
      invariant. */
  lemma CountdownKeepsInvariant(s: Session)
    requires Invariant(s)
    ensures Invariant(BombCountdown(s))
  {
  }

  lemma DragKeepsInvariant(s: Session, translation: Size)
    requires Invariant(s)
    ensures Invariant(DragChanged(s, translation)) && Invariant(DragEnded(s))
  {
  }

  lemma TapKeepsInvariant(s: Session)
    requires Invariant(s)
    ensures Invariant(Tap(s)) && Invariant(TogglePause(s))
  {
  }
}
