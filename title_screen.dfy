/** The title screen's decoration: bubbles that drift in from the edges and
    pop on the spikeballs, spikeballs that drift across, and the tick that
    animates them only while the menu itself is showing. */
module TitleScreen {
  import opened Geometry
  import opened Sequences

  /** A decorative bubble; its random opacity is only drawn. */
  datatype Bubble = Bubble(position: Point, speed: Size)

  datatype Spikeball = Spikeball(position: Point, speed: Size)

  /** Entities are culled 50 points outside the screen. */
  const Margin: real := 50.0
  /** A bubble pops when a spikeball's centre is closer than 25 points. */
  const PopRadius: real := 25.0

  // ------------------------------------------------------------- generators

  /** The random choices of one generator call: the edge (`Int.random(in: 0..<4)`),
      the place along it, the speed along the inward axis and the drift
      across it, each as a fraction of its range. */
  datatype EdgeDraw = EdgeDraw(edge: int, along: real, inward: real, across: real)

  predicate ValidEdgeDraw(e: EdgeDraw)
  {
    Unit(e.along) && Unit(e.inward) && Unit(e.across)
  }

  datatype Entry = Entry(position: Point, speed: Size)

  /** Where a generated entity starts and how fast it goes: `inset` points
      beyond the chosen edge (0 left, 1 right, 2 top, anything else bottom),
      anywhere along it, with an inward speed in [lo, hi] and a drift in
      [-drift, drift] across. */
  function EdgeEntry(e: EdgeDraw, inset: real, lo: real, hi: real, drift: real): (r: Entry)
    requires 0.0 < lo <= hi && 0.0 <= drift && 0.0 < inset
    ensures ValidEdgeDraw(e) ==>
      !OnScreen(r.position) && WithinMargin(r.position, inset) &&
      (r.position.x < 0.0 ==> r.speed.width > 0.0) && (r.position.x > Width ==> r.speed.width < 0.0) &&
      (r.position.y < 0.0 ==> r.speed.height > 0.0) && (r.position.y > Height ==> r.speed.height < 0.0)
    ensures ValidEdgeDraw(e) && e.edge == 0 ==>
      r.position.x == -inset && 0.0 <= r.position.y <= Height &&
      lo <= r.speed.width <= hi && Abs(r.speed.height) <= drift
    ensures ValidEdgeDraw(e) && e.edge == 1 ==>
      r.position.x == Width + inset && 0.0 <= r.position.y <= Height &&
      -hi <= r.speed.width <= -lo && Abs(r.speed.height) <= drift
    ensures ValidEdgeDraw(e) && e.edge == 2 ==>
      r.position.y == -inset && 0.0 <= r.position.x <= Width &&
      lo <= r.speed.height <= hi && Abs(r.speed.width) <= drift
    ensures ValidEdgeDraw(e) && e.edge != 0 && e.edge != 1 && e.edge != 2 ==>
      r.position.y == Height + inset && 0.0 <= r.position.x <= Width &&
      -hi <= r.speed.height <= -lo && Abs(r.speed.width) <= drift
  {
    var along := if e.edge == 0 || e.edge == 1 then Between(0.0, Height, e.along) else Between(0.0, Width, e.along);
    var cross := Between(-drift, drift, e.across);
    if e.edge == 0 then Entry(Point(-inset, along), Size(Between(lo, hi, e.inward), cross))
    else if e.edge == 1 then Entry(Point(Width + inset, along), Size(Between(-hi, -lo, e.inward), cross))
    else if e.edge == 2 then Entry(Point(along, -inset), Size(cross, Between(lo, hi, e.inward)))
    else Entry(Point(along, Height + inset), Size(cross, Between(-hi, -lo, e.inward)))
  }

  /** 30 points beyond an edge, 0.5 to 1.5 points per tick inward and up
      to 0.5 across. */
  function GenerateRandomBubble(e: EdgeDraw): (b: Bubble)
    ensures ValidEdgeDraw(e) ==>
      !OnScreen(b.position) && WithinMargin(b.position, 30.0) &&
      (e.edge == 0 ==> b.position.x == -30.0 && 0.5 <= b.speed.width <= 1.5) &&
      (e.edge == 1 ==> b.position.x == Width + 30.0 && -1.5 <= b.speed.width <= -0.5) &&
      (e.edge == 2 ==> b.position.y == -30.0 && 0.5 <= b.speed.height <= 1.5) &&
      (e.edge != 0 && e.edge != 1 && e.edge != 2 ==>
         b.position.y == Height + 30.0 && -1.5 <= b.speed.height <= -0.5) &&
      (e.edge == 0 || e.edge == 1 ==> Abs(b.speed.height) <= 0.5) &&
      (e.edge != 0 && e.edge != 1 ==> Abs(b.speed.width) <= 0.5)
  {
    var entry := EdgeEntry(e, 30.0, 0.5, 1.5, 0.5);
    Bubble(entry.position, entry.speed)
  }

  /** 40 points beyond an edge, 0.5 to 1.0 points per tick inward and up
      to 0.3 across. */
  function GenerateRandomSpikeball(e: EdgeDraw): (k: Spikeball)
    ensures ValidEdgeDraw(e) ==>
      !OnScreen(k.position) && WithinMargin(k.position, 40.0) &&
      (e.edge == 0 ==> k.position.x == -40.0 && 0.5 <= k.speed.width <= 1.0) &&
      (e.edge == 1 ==> k.position.x == Width + 40.0 && -1.0 <= k.speed.width <= -0.5) &&
      (e.edge == 2 ==> k.position.y == -40.0 && 0.5 <= k.speed.height <= 1.0) &&
      (e.edge != 0 && e.edge != 1 && e.edge != 2 ==>
         k.position.y == Height + 40.0 && -1.0 <= k.speed.height <= -0.5) &&
      (e.edge == 0 || e.edge == 1 ==> Abs(k.speed.height) <= 0.3) &&
      (e.edge != 0 && e.edge != 1 ==> Abs(k.speed.width) <= 0.3)
  {
    var entry := EdgeEntry(e, 40.0, 0.5, 1.0, 0.3);
    Spikeball(entry.position, entry.speed)
  }

  // ------------------------------------------------------ initial spikeballs

  /** `Int(W * H / 60000)`: the screen's area decides how many spikeballs
      the menu starts with. */
  const InitialCountReal: real := Width * Height / 60000.0

  lemma InitialCountIsFive()
    ensures InitialCountReal.Floor == 5
  {
    assert 5.0 <= InitialCountReal < 6.0;
  }

  /** The random choices for one initial spikeball, as fractions. */
  datatype Placement = Placement(x: real, y: real, dx: real, dy: real)

  predicate ValidPlacement(p: Placement)
  {
    Unit(p.x) && Unit(p.y) && Unit(p.dx) && Unit(p.dy)
  }

  function Place(p: Placement): Spikeball
  {
    Spikeball(Point(Between(60.0, Width - 60.0, p.x), Between(60.0, Height - 60.0, p.y)),
              Size(Between(-0.5, 0.5, p.dx), Between(-0.5, 0.5, p.dy)))
  }

  /** `(0..<count).map { _ in ... }`, where `draw(i)` holds the i-th
      closure call's random choices. */
  function InitialSpikeballs(draw: nat -> Placement): (ks: seq<Spikeball>)
    ensures |ks| == InitialCountReal.Floor == 5
    ensures (forall i :: ValidPlacement(draw(i))) ==>
      forall i :: 0 <= i < |ks| ==>
        60.0 <= ks[i].position.x <= Width - 60.0 && 60.0 <= ks[i].position.y <= Height - 60.0 &&
        Abs(ks[i].speed.width) <= 0.5 && Abs(ks[i].speed.height) <= 0.5
  {
    InitialCountIsFive();
    seq(InitialCountReal.Floor, i requires 0 <= i => Place(draw(i)))
  }

  // ------------------------------------------------------------ the updates

  function Moved(p: Point, v: Size): Point
  {
    Point(p.x + v.width, p.y + v.height)
  }

  function MoveBubbles(bs: seq<Bubble>): seq<Bubble>
  {
    seq(|bs|, i requires 0 <= i < |bs| => bs[i].(position := Moved(bs[i].position, bs[i].speed)))
  }

  function MoveSpikeballs(ks: seq<Spikeball>): seq<Spikeball>
  {
    seq(|ks|, i requires 0 <= i < |ks| => ks[i].(position := Moved(ks[i].position, ks[i].speed)))
  }

  /** `spikeballs.contains { hypot(...) < 25 }`, with the distance compared squared. */
  predicate Pops(b: Bubble, ks: seq<Spikeball>)
  {
    exists j :: 0 <= j < |ks| && DistSq(ks[j].position, b.position) < PopRadius * PopRadius
  }

  /** A moved bubble is kept when it is inside the margin box and no
      spikeball pops it. */
  predicate BubbleSurvives(b: Bubble, ks: seq<Spikeball>)
  {
    WithinMargin(b.position, Margin) && !Pops(b, ks)
  }

  predicate SpikeballInside(k: Spikeball, margin: real)
  {
    WithinMargin(k.position, margin)
  }

  /** The draws of one title tick: the two spawn rolls
      (`Int.random(in: 0..<10)` and `Int.random(in: 0..<20)`) and the
      generators' choices. */
  datatype TitleDraws = TitleDraws(bubbleRoll: int, bubble: EdgeDraw, spikeballRoll: int, spikeball: EdgeDraw)

  predicate ValidTitleDraws(d: TitleDraws)
  {
    ValidEdgeDraw(d.bubble) && ValidEdgeDraw(d.spikeball)
  }

  /** `updateBubbles`: move, keep the survivors in order, then one new
      bubble on a roll of 0. The spikeballs are those of before their own
      update in the same tick. */
  function BubblesAfter(bs: seq<Bubble>, ks: seq<Spikeball>, roll: int, e: EdgeDraw): seq<Bubble>
  {
    Keep(MoveBubbles(bs), BubbleSurvives, ks) + (if roll == 0 then [GenerateRandomBubble(e)] else [])
  }

  /** `updateSpikeballs`: move, keep those inside the margin, then one new
      spikeball on a roll of 0. */
  function SpikeballsAfter(ks: seq<Spikeball>, roll: int, e: EdgeDraw): seq<Spikeball>
  {
    Keep(MoveSpikeballs(ks), SpikeballInside, Margin) + (if roll == 0 then [GenerateRandomSpikeball(e)] else [])
  }

  /** Every bubble kept lies inside the margin box and at least 25 points
      from every spikeball; every moved bubble that is both is kept; the
      survivors keep their order, and at most the generated one is added,
      at the end. */
  lemma BubblesAfterKeepsClearBubbles(bs: seq<Bubble>, ks: seq<Spikeball>, roll: int, e: EdgeDraw)
    ensures var r := BubblesAfter(bs, ks, roll, e); var n := if roll == 0 then |r| - 1 else |r|;
      0 <= n <= |bs| && |r| <= |bs| + 1 &&
      IsSubsequence(r[..n], MoveBubbles(bs)) &&
      (forall i :: 0 <= i < n ==> WithinMargin(r[i].position, Margin)) &&
      (forall i, j :: 0 <= i < n && 0 <= j < |ks| ==>
         DistSq(ks[j].position, r[i].position) >= PopRadius * PopRadius) &&
      (forall b :: b in MoveBubbles(bs) && WithinMargin(b.position, Margin) && !Pops(b, ks) ==> b in r[..n]) &&
      (roll == 0 ==> r[n] == GenerateRandomBubble(e))
  {
    var moved := MoveBubbles(bs);
    var kept := Keep(moved, BubbleSurvives, ks);
    var r := BubblesAfter(bs, ks, roll, e);
    var n := if roll == 0 then |r| - 1 else |r|;
    assert r[..n] == kept;
    KeepIsSubsequence(moved, BubbleSurvives, ks);
    KeepMembers(moved, BubbleSurvives, ks);
    forall i | 0 <= i < n
      ensures WithinMargin(r[i].position, Margin)
      ensures forall j :: 0 <= j < |ks| ==> DistSq(ks[j].position, r[i].position) >= PopRadius * PopRadius
    {
      assert kept[i] in kept;
    }
  }

  /** Every spikeball kept lies inside the margin box, every moved one
      inside it is kept, in order, and at most the generated one is added. */
  lemma SpikeballsAfterKeepsInside(ks: seq<Spikeball>, roll: int, e: EdgeDraw)
    ensures var r := SpikeballsAfter(ks, roll, e); var n := if roll == 0 then |r| - 1 else |r|;
      0 <= n <= |ks| && |r| <= |ks| + 1 &&
      IsSubsequence(r[..n], MoveSpikeballs(ks)) &&
      (forall i :: 0 <= i < n ==> WithinMargin(r[i].position, Margin)) &&
      (forall k :: k in MoveSpikeballs(ks) && WithinMargin(k.position, Margin) ==> k in r[..n]) &&
      (roll == 0 ==> r[n] == GenerateRandomSpikeball(e))
  {
    var moved := MoveSpikeballs(ks);
    var kept := Keep(moved, SpikeballInside, Margin);
    var r := SpikeballsAfter(ks, roll, e);
    var n := if roll == 0 then |r| - 1 else |r|;
    assert r[..n] == kept;
    KeepIsSubsequence(moved, SpikeballInside, Margin);
    KeepMembers(moved, SpikeballInside, Margin);
    forall i | 0 <= i < n ensures WithinMargin(r[i].position, Margin) {
      assert kept[i] in kept;
    }
  }

  /** A generated bubble or spikeball is not culled on its first move: it
      starts within 40 points of the screen and moves at most 1.5 points. */
  lemma GeneratedSurviveFirstMove(e: EdgeDraw)
    requires ValidEdgeDraw(e)
    ensures var b := GenerateRandomBubble(e); WithinMargin(Moved(b.position, b.speed), Margin)
    ensures var k := GenerateRandomSpikeball(e); WithinMargin(Moved(k.position, k.speed), Margin)
  {
    var b := GenerateRandomBubble(e);
    var k := GenerateRandomSpikeball(e);
    assert Abs(b.speed.width) <= 1.5 && Abs(b.speed.height) <= 1.5;
    assert Abs(k.speed.width) <= 1.0 && Abs(k.speed.height) <= 1.0;
  }

  // -------------------------------------------------------------- the screen

  /** The title screen's state: which screen is up, the music flag, the
      two sound counters and the decoration. */
  datatype Title = Title(
    isGameStarted: bool,
    showHelp: bool,
    showSettings: bool,
    hasStartedMusic: bool,
    bgMusicPlays: nat,
    fxPlays: nat,
    bubbles: seq<Bubble>,
    spikeballs: seq<Spikeball>)

  /** The tick animates only while the menu itself is on screen. */
  predicate Animating(t: Title)
  {
    !t.isGameStarted && !t.showHelp && !t.showSettings
  }

  function TitleTick(t: Title, d: TitleDraws): Title
  {
    if !Animating(t) then t
    else t.(bubbles := BubblesAfter(t.bubbles, t.spikeballs, d.bubbleRoll, d.bubble),
            spikeballs := SpikeballsAfter(t.spikeballs, d.spikeballRoll, d.spikeball))
  }

  /** Every decoration lies inside the 50-point margin box. */
  ghost predicate Decorated(t: Title)
  {
    (forall i :: 0 <= i < |t.bubbles| ==> WithinMargin(t.bubbles[i].position, Margin)) &&
    (forall i :: 0 <= i < |t.spikeballs| ==> WithinMargin(t.spikeballs[i].position, Margin))
  }

  /** Off the menu the tick changes nothing; on it, only the decoration. */
  lemma TickGate(t: Title, d: TitleDraws)
    ensures !Animating(t) ==> TitleTick(t, d) == t
    ensures Animating(t) ==>
      TitleTick(t, d).(bubbles := t.bubbles, spikeballs := t.spikeballs) == t
  {
  }

  /** The tick keeps every decoration inside the margin box. */
  lemma TitleTickKeepsDecorated(t: Title, d: TitleDraws)
    requires Decorated(t) && ValidTitleDraws(d)
    ensures Decorated(TitleTick(t, d))
  {
    if Animating(t) {
      var r := TitleTick(t, d);
      BubblesAfterKeepsClearBubbles(t.bubbles, t.spikeballs, d.bubbleRoll, d.bubble);
      SpikeballsAfterKeepsInside(t.spikeballs, d.spikeballRoll, d.spikeball);
      assert r.bubbles == BubblesAfter(t.bubbles, t.spikeballs, d.bubbleRoll, d.bubble);
      assert r.spikeballs == SpikeballsAfter(t.spikeballs, d.spikeballRoll, d.spikeball);
    }
  }

  /** A fresh set of initial spikeballs lies well inside the margin box. */
  lemma InitialSpikeballsDecorated(t: Title, draw: nat -> Placement)
    requires forall i :: ValidPlacement(draw(i))
    requires forall i :: 0 <= i < |t.bubbles| ==> WithinMargin(t.bubbles[i].position, Margin)
    ensures Decorated(t.(spikeballs := InitialSpikeballs(draw)))
  {
  }

  // ---------------------------------------------------------- the view

  class TitleScreenView {
    var isGameStarted: bool
    var showHelp: bool
    var showSettings: bool
    var hasStartedMusic: bool
    var bgMusicPlays: nat
    var fxPlays: nat
    var bubbles: seq<Bubble>
    var spikeballs: seq<Spikeball>

    function State(): Title
      reads this
    {
      Title(isGameStarted, showHelp, showSettings, hasStartedMusic, bgMusicPlays, fxPlays, bubbles, spikeballs)
    }

    ghost predicate Valid()
      reads this
    {
      Decorated(State())
    }

    constructor()
      ensures State() == Title(false, false, false, false, 0, 0, [], [])
      ensures Valid()
    {
      isGameStarted, showHelp, showSettings, hasStartedMusic := false, false, false, false;
      bgMusicPlays, fxPlays, bubbles, spikeballs := 0, 0, [], [];
    }

    /** `onAppear`: start the music the first time only, lay out the
        initial spikeballs and clear the bubbles. */
    method Appear(draw: nat -> Placement)
      requires forall i :: ValidPlacement(draw(i))
      modifies this`hasStartedMusic, this`bgMusicPlays, this`spikeballs, this`bubbles
      ensures hasStartedMusic
      ensures bgMusicPlays == if old(hasStartedMusic) then old(bgMusicPlays) else old(bgMusicPlays) + 1
      ensures spikeballs == InitialSpikeballs(draw) && bubbles == []
      ensures Valid()
    {
      if !hasStartedMusic {
        bgMusicPlays := bgMusicPlays + 1;
        hasStartedMusic := true;
      }
      SpawnInitialSpikeballs(draw);
      bubbles := [];
      InitialSpikeballsDecorated(State(), draw);
    }

    /** One firing of the 0.02-second title timer. */
    method Tick(d: TitleDraws)
      requires Valid() && ValidTitleDraws(d)
      modifies this`bubbles, this`spikeballs
      ensures State() == TitleTick(old(State()), d)
      ensures Valid()
    {
      TitleTickKeepsDecorated(State(), d);
      if !isGameStarted && !showHelp && !showSettings {
        UpdateBubbles(d.bubbleRoll, d.bubble);
        UpdateSpikeballs(d.spikeballRoll, d.spikeball);
      }
    }

    /** Each bubble is moved in a copy, skipped when past the margin or
        popped, and otherwise appended to a fresh list that then replaces
        `bubbles`. */
    method UpdateBubbles(roll: int, e: EdgeDraw)
      modifies this`bubbles
      ensures bubbles == BubblesAfter(old(bubbles), spikeballs, roll, e)
    {
      var current := bubbles;
      ghost var moved := MoveBubbles(current);
      var updated: seq<Bubble> := [];
      for i := 0 to |current|
        invariant updated == Keep(moved[..i], BubbleSurvives, spikeballs)
      {
        var b := current[i];
        b := b.(position := Point(b.position.x + b.speed.width, b.position.y + b.speed.height));
        KeepPrefixStep(moved, i, BubbleSurvives, spikeballs);
        if b.position.x < -50.0 || b.position.x > Width + 50.0 || b.position.y < -50.0 || b.position.y > Height + 50.0 {
          continue;
        }
        var collided := Pops(b, spikeballs);
        if !collided {
          updated := updated + [b];
        }
      }
      assert moved[..|current|] == moved;
      bubbles := updated;
      if roll == 0 {
        bubbles := bubbles + [GenerateRandomBubble(e)];
      }
    }

    /** The same walk over the spikeballs, with the margin test only. */
    method UpdateSpikeballs(roll: int, e: EdgeDraw)
      modifies this`spikeballs
      ensures spikeballs == SpikeballsAfter(old(spikeballs), roll, e)
    {
      var current := spikeballs;
      ghost var moved := MoveSpikeballs(current);
      var updated: seq<Spikeball> := [];
      for i := 0 to |current|
        invariant updated == Keep(moved[..i], SpikeballInside, Margin)
      {
        var s := current[i];
        s := s.(position := Point(s.position.x + s.speed.width, s.position.y + s.speed.height));
        KeepPrefixStep(moved, i, SpikeballInside, Margin);
        if s.position.x < -50.0 || s.position.x > Width + 50.0 || s.position.y < -50.0 || s.position.y > Height + 50.0 {
          continue;
        }
        updated := updated + [s];
      }
      assert moved[..|current|] == moved;
      spikeballs := updated;
      if roll == 0 {
        spikeballs := spikeballs + [GenerateRandomSpikeball(e)];
      }
    }

    method SpawnInitialSpikeballs(draw: nat -> Placement)
      modifies this`spikeballs
      ensures spikeballs == InitialSpikeballs(draw)
    {
      spikeballs := InitialSpikeballs(draw);
    }

    method ClearActiveEntities()
      modifies this`bubbles, this`spikeballs
      ensures bubbles == [] && spikeballs == []
    {
      bubbles := [];
      spikeballs := [];
    }

    method ResetForMenu(draw: nat -> Placement)
      modifies this`bubbles, this`spikeballs
      ensures bubbles == [] && spikeballs == InitialSpikeballs(draw)
    {
      bubbles := [];
      SpawnInitialSpikeballs(draw);
    }

    /** The start button: the sound is played twice, once by the button
        wrapper and once by the start action itself; a second later the game
        screen is up with the decoration cleared. The delay is not modelled. */
    method PressStart()
      requires Valid()
      modifies this`fxPlays, this`isGameStarted, this`bubbles, this`spikeballs
      ensures fxPlays == old(fxPlays) + 2 && isGameStarted && bubbles == [] && spikeballs == []
      ensures !Animating(State()) && Valid()
    {
      fxPlays := fxPlays + 1;
      fxPlays := fxPlays + 1;
      isGameStarted := true;
      ClearActiveEntities();
    }

    /** The settings button: one sound, from the button wrapper. */
    method PressSettings()
      requires Valid()
      modifies this`fxPlays, this`showSettings, this`bubbles, this`spikeballs
      ensures fxPlays == old(fxPlays) + 1 && showSettings && bubbles == [] && spikeballs == []
      ensures !Animating(State()) && Valid()
    {
      fxPlays := fxPlays + 1;
      showSettings := true;
      ClearActiveEntities();
    }

    /** The help button: one sound, from the button wrapper. */
    method PressHelp()
      requires Valid()
      modifies this`fxPlays, this`showHelp, this`bubbles, this`spikeballs
      ensures fxPlays == old(fxPlays) + 1 && showHelp && bubbles == [] && spikeballs == []
      ensures !Animating(State()) && Valid()
    {
      fxPlays := fxPlays + 1;
      showHelp := true;
      ClearActiveEntities();
    }

    /** The settings screen's back button, through its `showSettings` binding. */
    method CloseSettings()
      modifies this`fxPlays, this`showSettings
      ensures fxPlays == old(fxPlays) + 1 && !showSettings
    {
      fxPlays := fxPlays + 1;
      showSettings := false;
    }

    /** The game screen's `onBack`: back to the menu with a fresh set of
        spikeballs and no bubbles. */
    method BackToMenu(draw: nat -> Placement)
      requires forall i :: ValidPlacement(draw(i))
      modifies this`isGameStarted, this`bubbles, this`spikeballs
      ensures !isGameStarted && bubbles == [] && spikeballs == InitialSpikeballs(draw)
      ensures Valid()
    {
      isGameStarted := false;
      ResetForMenu(draw);
      InitialSpikeballsDecorated(State(), draw);
    }
  }
}
