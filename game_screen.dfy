/** The game screen as the program runs it: the view's `@State` fields,
    updated in place by the world tick, the collision pass, the bomb
    countdown timer, `restartGame` and the gesture and button handlers.
    Each method is proved to do exactly what the matching function of
    GameRules says, and to keep the session invariant of GameProperties. */
module GameScreen {
  import opened Geometry
  import opened Sequences
  import opened Entities
  import opened GameRules
  import opened GameProperties

  /** `spikes.firstIndex(where: { $0.id == id })`, with -1 for nil. */
  method FirstIndexWithId(ks: seq<Spike>, id: nat) returns (index: int)
    ensures -1 <= index < |ks|
    ensures index >= 0 ==> ks[index].id == id
    ensures forall j :: 0 <= j < |ks| && (index < 0 || j < index) ==> ks[j].id != id
  {
    index := 0;
    while index < |ks|
      invariant 0 <= index <= |ks|
      invariant forall j :: 0 <= j < index ==> ks[j].id != id
    {
      if ks[index].id == id {
        return;
      }
      index := index + 1;
    }
    index := -1;
  }

  /** While bomb-active, the live list is the kept spikes followed by the
      unvisited ones. The kept spikes come before position `i`, so their
      identifiers are smaller than that of the spike at `i`, and the first
      index with that identifier is just past them: removing it leaves the
      kept spikes followed by the rest. */
  lemma RemovalFindsVisitedSpike(all: seq<Spike>, i: nat, frame: Rect, live: seq<Spike>, index: int)
    requires i < |all|
    requires IdsIncreasing(all)
    requires live == Keep(all[..i], SpikeMisses, frame) + all[i..]
    requires -1 <= index < |live|
    requires index >= 0 ==> live[index].id == all[i].id
    requires forall j :: 0 <= j < |live| && (index < 0 || j < index) ==> live[j].id != all[i].id
    ensures index == |Keep(all[..i], SpikeMisses, frame)|
    ensures live[..index] + live[index + 1..] == Keep(all[..i], SpikeMisses, frame) + all[i + 1..]
  {
    var kept := Keep(all[..i], SpikeMisses, frame);
    DropFirstOfSuffix(kept, all, i);
    KeepMembers(all[..i], SpikeMisses, frame);
    forall j | 0 <= j < |kept| ensures live[j].id < all[i].id {
      assert live[j] == kept[j] && kept[j] in kept;
      var a :| 0 <= a < i && all[..i][a] == kept[j];
      assert IdBefore(all[a], all[i]);
    }
  }

  class GameScreenView {
    var spikes: seq<Spike>
    var bombBubbles: seq<BombBubble>
    var timerBubbles: seq<TimerBubble>
    var gameTime: real
    var lastSpikeSpawnTime: real
    var slowUntil: real
    var isBombActive: bool
    var bombRemainingTime: real
    /** Whether the repeating one-second `bombTimer` is scheduled. */
    var bombTimerArmed: bool
    var isGameStarted: bool
    var isPaused: bool
    var isGameOver: bool
    var showGameText: bool
    var bubblePosition: Point
    var dragOffset: Size
    /** Source of fresh spike identifiers. */
    var nextSpikeId: nat
    /** Number of times the effect sound has been played. */
    var fxPlays: nat

    function State(): Session
      reads this
    {
      Session(spikes, bombBubbles, timerBubbles, gameTime, lastSpikeSpawnTime, slowUntil,
              isBombActive, bombRemainingTime, bombTimerArmed, isGameStarted, isPaused,
              isGameOver, showGameText, bubblePosition, dragOffset, nextSpikeId, fxPlays)
    }

    ghost predicate Valid()
      reads this
    {
      Invariant(State())
    }

    constructor()
      ensures State() == InitialSession && Valid()
    {
      spikes, bombBubbles, timerBubbles := [], [], [];
      gameTime, lastSpikeSpawnTime, slowUntil := 0.0, 0.0, 0.0;
      isBombActive, bombRemainingTime, bombTimerArmed := false, 0.0, false;
      isGameStarted, isPaused, isGameOver, showGameText := false, false, false, true;
      bubblePosition, dragOffset := PlayerStart, ZeroSize;
      nextSpikeId, fxPlays := 0, 0;
    }

    // ------------------------------------------------------------ world tick

    /** One firing of the 16 ms game timer. */
    method WorldTick(d: TickDraws, m: Math)
      requires Valid() && ValidDraws(d) && SqrtExact(m)
      modifies this
      ensures State() == GameRules.WorldTick(old(State()), d, m)
      ensures Valid()
    {
      WorldTickKeepsInvariant(State(), d, m);
      if !(isGameStarted && !isPaused && !isGameOver) {
        return;
      }
      RunPhases(d, m);
    }

    /** The body of a running tick: the clock advances, then the bomb, timer
        and spike phases run in that order. */
    method RunPhases(d: TickDraws, m: Math)
      requires Active(State()) && ValidDraws(d) && SqrtExact(m)
      requires forall i :: 0 <= i < |timerBubbles| ==> timerBubbles[i].speed >= 0.0
      modifies this`gameTime, this`bombBubbles, this`timerBubbles, this`slowUntil, this`fxPlays
      modifies this`spikes, this`lastSpikeSpawnTime, this`nextSpikeId
      ensures State() == GameRules.WorldTick(old(State()), d, m)
    {
      gameTime := gameTime + Dt;
      BombStep(d, m);
      TimerStep(d, m);
      SpikeStep(d, m);
    }

    /** Bomb bubbles: spawn with chance 1 in 11 below the cap, move each in
        place, then `removeAll` those past the margin. */
    method BombStep(d: TickDraws, m: Math)
      requires ValidDraws(d) && SqrtExact(m)
      modifies this`bombBubbles
      ensures State() == BombPhase(old(State()), d, m)
    {
      if |bombBubbles| < MaxBombBubbles && d.bombRoll == 0 {
        bombBubbles := bombBubbles + [SpawnBomb(d, gameTime, m)];
      }
      ghost var spawned := bombBubbles;
      var i := 0;
      while i < |bombBubbles|
        invariant 0 <= i <= |bombBubbles| == |spawned|
        invariant forall j :: 0 <= j < i ==> bombBubbles[j] == MoveBomb(spawned[j], gameTime, m)
        invariant forall j :: i <= j < |spawned| ==> bombBubbles[j] == spawned[j]
      {
        bombBubbles := bombBubbles[i := MoveBomb(bombBubbles[i], gameTime, m)];
        i := i + 1;
      }
      assert bombBubbles == MoveBombs(spawned, gameTime, m);
      bombBubbles := Keep(bombBubbles, BombInside, CullMargin);
    }

    /** Timer bubbles: spawn one in the first tick of every two seconds below
        the cap, move each in place, then walk them from the back, removing
        each one within 50 points of the player with its sound and slow window. */
    method TimerStep(d: TickDraws, m: Math)
      requires ValidDraws(d)
      requires forall i :: 0 <= i < |timerBubbles| ==> timerBubbles[i].speed >= 0.0
      modifies this`timerBubbles, this`slowUntil, this`fxPlays
      ensures State() == TimerPhase(old(State()), d, m)
    {
      UpdateTimers(d, m);
    }

    /** The three fields the timer phase writes, each given by the session
        before the phase. */
    method UpdateTimers(d: TickDraws, m: Math)
      requires ValidDraws(d)
      requires forall i :: 0 <= i < |timerBubbles| ==> timerBubbles[i].speed >= 0.0
      modifies this`timerBubbles, this`slowUntil, this`fxPlays
      ensures var s := old(State()); var before := TimersBeforePickup(s, d, m);
        var kept := Keep(before, Uncollected, s.bubblePosition);
        timerBubbles == kept &&
        slowUntil == (if |before| - |kept| > 0 then s.gameTime + SlowDuration else s.slowUntil) &&
        fxPlays == s.fxPlays + (|before| - |kept|)
    {
      if |timerBubbles| < MaxTimerBubbles && d.timerWindow {
        timerBubbles := timerBubbles + [SpawnTimer(d, m)];
      }
      MoveTimerBubbles(m);
      PickUpTimers();
    }

    method MoveTimerBubbles(m: Math)
      requires forall i :: 0 <= i < |timerBubbles| ==> timerBubbles[i].speed >= 0.0
      modifies this`timerBubbles
      ensures timerBubbles == MoveTimers(old(timerBubbles), gameTime, m)
    {
      ghost var spawned := timerBubbles;
      var i := 0;
      while i < |timerBubbles|
        invariant 0 <= i <= |timerBubbles| == |spawned|
        invariant forall j :: 0 <= j < i ==> timerBubbles[j] == MoveTimer(spawned[j], gameTime, m)
        invariant forall j :: i <= j < |spawned| ==> timerBubbles[j] == spawned[j]
      {
        timerBubbles := timerBubbles[i := MoveTimer(timerBubbles[i], gameTime, m)];
        i := i + 1;
      }
      assert timerBubbles == MoveTimers(spawned, gameTime, m);
    }

    /** The reversed walk over the timer bubbles that removes the ones the
        player touches. */
    method PickUpTimers()
      modifies this`timerBubbles, this`slowUntil, this`fxPlays
      ensures var kept := Keep(old(timerBubbles), Uncollected, bubblePosition);
        timerBubbles == kept &&
        fxPlays == old(fxPlays) + (|old(timerBubbles)| - |kept|) &&
        slowUntil == (if |kept| < |old(timerBubbles)| then gameTime + SlowDuration else old(slowUntil))
    {
      var bubbles := timerBubbles;
      var index := |bubbles|;
      ghost var kept: seq<TimerBubble> := [];
      ghost var taken := 0;
      while index > 0
        invariant 0 <= index <= |bubbles|
        invariant kept == Keep(bubbles[index..], Uncollected, bubblePosition)
        invariant timerBubbles == bubbles[..index] + kept
        invariant fxPlays == old(fxPlays) + taken && taken + |kept| == |bubbles| - index
        invariant slowUntil == (if taken > 0 then gameTime + SlowDuration else old(slowUntil))
      {
        index := index - 1;
        var bubble := bubbles[index];
        KeepFrom(bubbles, index, Uncollected, bubblePosition);
        DropLastOfPrefix(bubbles, index, kept);
        if !Uncollected(bubble, bubblePosition) {
          slowUntil := gameTime + SlowDuration;
          timerBubbles := timerBubbles[..index] + timerBubbles[index + 1..];
          fxPlays := fxPlays + 1;
          taken := taken + 1;
        } else {
          kept := [bubble] + kept;
        }
      }
      assert bubbles[0..] == bubbles;
    }

    /** Spikes: spawn one when the interval has passed below the cap, move
        each in place at the slow-window multiplier, then `removeAll` those
        past the margin. */
    method SpikeStep(d: TickDraws, m: Math)
      requires ValidDraws(d) && SqrtExact(m)
      modifies this`spikes, this`lastSpikeSpawnTime, this`nextSpikeId
      ensures State() == SpikePhase(old(State()), d, m)
    {
      UpdateSpikes(d, m);
    }

    /** The three fields the spike phase writes, each given by the session
        before the phase. */
    method UpdateSpikes(d: TickDraws, m: Math)
      requires ValidDraws(d) && SqrtExact(m)
      modifies this`spikes, this`lastSpikeSpawnTime, this`nextSpikeId
      ensures var s := old(State());
        spikes == Keep(SpikesBeforeCull(s, d, m), SpikeInside, CullMargin) &&
        lastSpikeSpawnTime == (if SpikeDue(s) then s.gameTime else s.lastSpikeSpawnTime) &&
        nextSpikeId == (if SpikeDue(s) then s.nextSpikeId + 1 else s.nextSpikeId)
    {
      SpawnSpikeIfDue(d, m);
      var multiplier := if gameTime < slowUntil then SlowFactor else 1.0;
      MoveSpikeList(multiplier, m);
      spikes := Keep(spikes, SpikeInside, CullMargin);
    }

    /** The spawning half of the spike phase. */
    method SpawnSpikeIfDue(d: TickDraws, m: Math)
      requires ValidDraws(d) && SqrtExact(m)
      modifies this`spikes, this`lastSpikeSpawnTime, this`nextSpikeId
      ensures var s := old(State());
        if SpikeDue(s) then
          spikes == s.spikes + [SpawnSpike(s.nextSpikeId, d, s.gameTime, m)] &&
          lastSpikeSpawnTime == s.gameTime && nextSpikeId == s.nextSpikeId + 1
        else
          spikes == s.spikes && lastSpikeSpawnTime == s.lastSpikeSpawnTime && nextSpikeId == s.nextSpikeId
    {
      var spawnInterval := Max(MaxSpawnInterval - gameTime * 0.02, MinSpawnInterval);
      if gameTime - lastSpikeSpawnTime > spawnInterval && |spikes| < MaxSpikes {
        lastSpikeSpawnTime, spikes, nextSpikeId :=
          gameTime, spikes + [SpawnSpike(nextSpikeId, d, gameTime, m)], nextSpikeId + 1;
      }
    }

    method MoveSpikeList(multiplier: real, m: Math)
      modifies this`spikes
      ensures spikes == MoveSpikes(old(spikes), gameTime, multiplier, m)
    {
      ghost var spawned := spikes;
      var i := 0;
      while i < |spikes|
        invariant 0 <= i <= |spikes| == |spawned|
        invariant forall j :: 0 <= j < i ==> spikes[j] == MoveSpike(spawned[j], gameTime, multiplier, m)
        invariant forall j :: i <= j < |spawned| ==> spikes[j] == spawned[j]
      {
        spikes := spikes[i := MoveSpike(spikes[i], gameTime, multiplier, m)];
        i := i + 1;
      }
      assert spikes == MoveSpikes(spawned, gameTime, multiplier, m);
    }

    // -------------------------------------------------------- collision pass

    /** One firing of the 16 ms animation timer, past its game-over guard:
        the spike loop, then the reversed bomb-bubble loop. */
    method CollisionPass()
      requires Valid()
      modifies this
      ensures State() == GameRules.CollisionPass(old(State()))
      ensures Valid()
    {
      ghost var s := State();
      CollisionPassKeepsInvariant(s);
      if isGameOver {
        return;
      }
      var bubbleFrame := Rect(PlayerDrawShift + bubblePosition.x + dragOffset.width - 25.0,
                              bubblePosition.y + dragOffset.height - 25.0, 50.0, 50.0);
      assert bubbleFrame == PlayerFrame(s);
      SpikeLoop(bubbleFrame);
      ghost var s1 := State();
      KeepShrinksIff(bombBubbles, BombMisses, bubbleFrame);
      BombLoop(bubbleFrame);
      assert State() == BombCollisions(s1, bubbleFrame);
    }

    /** `for spike in spikes`. The loop tests `isBombActive` for each
        touching spike, but nothing in it changes that flag, so the test is
        made once, ahead of the loop. */
    method SpikeLoop(bubbleFrame: Rect)
      requires !isGameOver
      requires IdsIncreasing(spikes)
      modifies this`spikes, this`isGameOver, this`isGameStarted, this`fxPlays
      ensures State() == SpikeCollisions(old(State()), bubbleFrame)
    {
      if isBombActive {
        DestroyTouchingSpikes(bubbleFrame);
      } else {
        FindLethalSpike(bubbleFrame);
      }
    }

    /** The spike loop while bomb-active: each touching spike is removed from
        the live list by its identifier. */
    method DestroyTouchingSpikes(bubbleFrame: Rect)
      requires IdsIncreasing(spikes)
      modifies this`spikes
      ensures spikes == Keep(old(spikes), SpikeMisses, bubbleFrame)
    {
      var all := spikes;
      var i := 0;
      ghost var kept: seq<Spike> := [];
      assert kept + all[0..] == all;
      while i < |all|
        invariant 0 <= i <= |all|
        invariant kept == Keep(all[..i], SpikeMisses, bubbleFrame)
        invariant spikes == kept + all[i..]
      {
        var spike := all[i];
        KeepPrefixStep(all, i, SpikeMisses, bubbleFrame);
        var spikeFrame := Rect(spike.position.x - 25.0, spike.position.y - 25.0, 50.0, 50.0);
        assert spikeFrame == SpikeFrame(spike);
        if Intersects(bubbleFrame, spikeFrame) {
          RemoveSpikeWithId(spike.id, all, i, bubbleFrame);
        } else {
          DropFirstOfSuffix(kept, all, i);
          kept := kept + [spike];
        }
        i := i + 1;
      }
      assert all[..|all|] == all;
    }

    /** The spike loop without a bomb: the first touching spike plays the
        sound, ends the game and leaves the loop. */
    method FindLethalSpike(bubbleFrame: Rect)
      requires !isGameOver
      modifies this`isGameOver, this`isGameStarted, this`fxPlays
      ensures AnyHit(spikes, bubbleFrame) ==> isGameOver && !isGameStarted && fxPlays == old(fxPlays) + 1
      ensures !AnyHit(spikes, bubbleFrame) ==>
        !isGameOver && isGameStarted == old(isGameStarted) && fxPlays == old(fxPlays)
    {
      var i := 0;
      while i < |spikes|
        invariant 0 <= i <= |spikes|
        invariant !isGameOver && isGameStarted == old(isGameStarted) && fxPlays == old(fxPlays)
        invariant forall j :: 0 <= j < i ==> SpikeMisses(spikes[j], bubbleFrame)
      {
        var spike := spikes[i];
        var spikeFrame := Rect(spike.position.x - 25.0, spike.position.y - 25.0, 50.0, 50.0);
        assert spikeFrame == SpikeFrame(spike);
        if Intersects(bubbleFrame, spikeFrame) && !isGameOver {
          fxPlays := fxPlays + 1;
          isGameOver := true;
          isGameStarted := false;
          return;
        }
        i := i + 1;
      }
    }

    /** `if let index = spikes.firstIndex(where: { $0.id == id }) {
        spikes.remove(at: index) }`, at the point of the spike loop where the
        live list is the kept spikes followed by the unvisited ones. */
    method RemoveSpikeWithId(id: nat, ghost all: seq<Spike>, ghost i: nat, ghost frame: Rect)
      requires i < |all| && all[i].id == id
      requires IdsIncreasing(all)
      requires spikes == Keep(all[..i], SpikeMisses, frame) + all[i..]
      modifies this`spikes
      ensures spikes == Keep(all[..i], SpikeMisses, frame) + all[i + 1..]
    {
      var index := FirstIndexWithId(spikes, id);
      RemovalFindsVisitedSpike(all, i, frame, spikes, index);
      if index >= 0 {
        spikes := spikes[..index] + spikes[index + 1..];
      }
    }

    /** `for (i, bomb) in bombBubbles.enumerated().reversed()`: each touching
        bomb bubble is removed and resets the bomb to five seconds with a
        freshly scheduled countdown. */
    method BombLoop(bubbleFrame: Rect)
      modifies this`bombBubbles, this`isBombActive, this`bombRemainingTime, this`bombTimerArmed
      ensures var kept := Keep(old(bombBubbles), BombMisses, bubbleFrame);
        bombBubbles == kept &&
        (|kept| < |old(bombBubbles)| ==> isBombActive && bombRemainingTime == BombDuration && bombTimerArmed) &&
        (|kept| == |old(bombBubbles)| ==>
           isBombActive == old(isBombActive) && bombRemainingTime == old(bombRemainingTime) &&
           bombTimerArmed == old(bombTimerArmed))
    {
      var all := bombBubbles;
      var i := |all|;
      ghost var kept: seq<BombBubble> := [];
      ghost var taken := 0;
      while i > 0
        invariant 0 <= i <= |all|
        invariant kept == Keep(all[i..], BombMisses, bubbleFrame)
        invariant bombBubbles == all[..i] + kept
        invariant taken + |kept| == |all| - i
        invariant taken > 0 ==> isBombActive && bombRemainingTime == BombDuration && bombTimerArmed
        invariant taken == 0 ==>
          isBombActive == old(isBombActive) && bombRemainingTime == old(bombRemainingTime) &&
          bombTimerArmed == old(bombTimerArmed)
      {
        i := i - 1;
        var bomb := all[i];
        KeepFrom(all, i, BombMisses, bubbleFrame);
        DropLastOfPrefix(all, i, kept);
        var bombFrame := Rect(bomb.position.x - 20.0, bomb.position.y - 20.0, 40.0, 40.0);
        assert bombFrame == BombFrame(bomb);
        if Intersects(bubbleFrame, bombFrame) {
          isBombActive := true;
          bombRemainingTime := BombDuration;
          bombBubbles := bombBubbles[..i] + bombBubbles[i + 1..];
          bombTimerArmed := true;
          taken := taken + 1;
        } else {
          kept := [bomb] + kept;
        }
      }
      assert all[0..] == all;
    }

    // --------------------------------------------------------- bomb countdown

    /** One firing of the repeating one-second `bombTimer`. */
    method BombTimerFired()
      requires Valid()
      modifies this`bombRemainingTime, this`isBombActive, this`bombTimerArmed
      ensures State() == BombCountdown(old(State()))
      ensures Valid()
    {
      CountdownKeepsInvariant(State());
      if !bombTimerArmed {
        return;
      }
      bombRemainingTime := bombRemainingTime - 1.0;
      if bombRemainingTime <= 0.0 {
        isBombActive := false;
        bombTimerArmed := false;
      }
    }

    // ------------------------------------------------------- restart, input

    method RestartGame()
      requires Valid()
      modifies this
      ensures State() == Restart(old(State()))
      ensures Valid()
    {
      RestartReturnsToIdle(State());
      ResetPlayer();
      ClearHazards();
      ResetClock();
    }

    /** `restartGame` in three groups of the fields it resets: the player,
        the hazards and bomb state, and the clock and flags. */
    method ResetPlayer()
      modifies this`bubblePosition, this`dragOffset, this`isGameStarted, this`showGameText
      ensures bubblePosition == PlayerStart && dragOffset == ZeroSize && !isGameStarted && showGameText
    {
      bubblePosition, dragOffset, isGameStarted, showGameText := PlayerStart, ZeroSize, false, true;
    }

    method ClearHazards()
      modifies this`spikes, this`bombBubbles, this`isBombActive, this`bombTimerArmed, this`bombRemainingTime
      ensures spikes == [] && bombBubbles == [] && !isBombActive && !bombTimerArmed && bombRemainingTime == 0.0
    {
      spikes, bombBubbles, isBombActive, bombTimerArmed, bombRemainingTime := [], [], false, false, 0.0;
    }

    method ResetClock()
      modifies this`gameTime, this`lastSpikeSpawnTime, this`isPaused, this`isGameOver
      ensures gameTime == 0.0 && lastSpikeSpawnTime == 0.0 && !isPaused && !isGameOver
    {
      gameTime, lastSpikeSpawnTime, isPaused, isGameOver := 0.0, 0.0, false, false;
    }

    /** The drag gesture's `onChanged`, reachable only while the bubble is shown. */
    method DragChanged(translation: Size)
      requires Valid()
      modifies this`isGameStarted, this`showGameText, this`dragOffset
      ensures State() == GameRules.DragChanged(old(State()), translation)
      ensures Valid()
    {
      DragKeepsInvariant(State(), translation);
      if isGameOver || isPaused {
        return;
      }
      if !isGameStarted {
        isGameStarted := true;
        showGameText := false;
      }
      dragOffset := translation;
    }

    /** The drag gesture's `onEnded`. */
    method DragEnded()
      requires Valid()
      modifies this`bubblePosition, this`dragOffset
      ensures State() == GameRules.DragEnded(old(State()))
      ensures Valid()
    {
      DragKeepsInvariant(State(), ZeroSize);
      if isGameOver || isPaused {
        return;
      }
      bubblePosition := Point(bubblePosition.x + dragOffset.width, bubblePosition.y + dragOffset.height);
      dragOffset := ZeroSize;
    }

    method Tap()
      requires Valid()
      modifies this`isGameStarted, this`showGameText
      ensures State() == GameRules.Tap(old(State()))
      ensures Valid()
    {
      TapKeepsInvariant(State());
      if isGameOver || isPaused {
        return;
      }
      if !isGameStarted {
        isGameStarted := true;
        showGameText := false;
      }
    }

    /** The pause button, shown only once the game has started. */
    method TogglePause()
      requires Valid()
      modifies this`isPaused
      ensures State() == GameRules.TogglePause(old(State()))
      ensures Valid()
    {
      TapKeepsInvariant(State());
      if isGameStarted {
        isPaused := !isPaused;
      }
    }
  }
}
