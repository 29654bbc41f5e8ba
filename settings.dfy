/** The settings screen's two volume sliders. A knob sits `dragX` points
    along a track; dragging moves it from where the last drag left it,
    clamped to [0, 235], and sets its player's volume to `dragX / 250`.
    The pause overlay of the game screen carries the same two sliders. */
module Settings {

  /** The far end of the track the knob is clamped to. */
  const KnobMax: real := 235.0
  /** Points of track per unit of volume. */
  const TrackScale: real := 250.0
  /** The volume both players are created with. */
  const InitialVolume: real := 0.7

  /** `min(max(x, 0), 235)`. */
  function Clamp(x: real): (r: real)
    ensures 0.0 <= r <= KnobMax
    ensures 0.0 <= x <= KnobMax ==> r == x
    ensures x < 0.0 ==> r == 0.0
    ensures x > KnobMax ==> r == KnobMax
  {
    var low := if x >= 0.0 then x else 0.0;
    if low <= KnobMax then low else KnobMax
  }

  /** The volume a knob position stands for. */
  function VolumeFor(x: real): (v: real)
    ensures 0.0 <= x <= KnobMax ==> 0.0 <= v <= 0.94
    ensures v * TrackScale == x
  {
    x / TrackScale
  }

  /** The knob position a volume is shown at, as `onAppear` computes it. */
  function KnobFor(v: real): (x: real)
    ensures VolumeFor(x) == v
  {
    v * TrackScale
  }

  /** A knob: where it is and where the last drag ended. */
  datatype Knob = Knob(dragX: real, lastDragX: real)

  /** `onChanged` with the drag's translation since it began. */
  function Dragged(k: Knob, translation: real): Knob
  {
    k.(dragX := Clamp(k.lastDragX + translation))
  }

  /** `onEnded`: the position is locked in. */
  function Released(k: Knob): Knob
  {
    k.(lastDragX := k.dragX)
  }

  /** `onAppear`: both positions read back from the player's volume,
      without a clamp. */
  function Appeared(volume: real): Knob
  {
    Knob(KnobFor(volume), KnobFor(volume))
  }

  /** Whatever the drag, the knob stays on the track and the volume it
      writes lies in [0, 0.94]. */
  lemma DragStaysOnTrack(k: Knob, translation: real)
    ensures 0.0 <= Dragged(k, translation).dragX <= KnobMax
    ensures 0.0 <= VolumeFor(Dragged(k, translation).dragX) <= 0.94
    ensures Dragged(k, translation).lastDragX == k.lastDragX
  {
  }

  /** Within one drag only the latest translation counts: each change is
      measured from the locked position, not from the previous change. */
  lemma LatestTranslationWins(k: Knob, t1: real, t2: real)
    ensures Dragged(Dragged(k, t1), t2) == Dragged(k, t2)
  {
  }

  /** After a release the next drag starts from where the knob was left. */
  lemma ReleaseLocksPosition(k: Knob, t1: real, t2: real)
    ensures Dragged(Released(Dragged(k, t1)), t2).dragX == Clamp(Clamp(k.lastDragX + t1) + t2)
    ensures Released(Dragged(k, t1)).dragX == Released(Dragged(k, t1)).lastDragX
  {
  }

  /** A volume written by a drag, read back on appear, puts the knob where
      the drag left it. */
  lemma AppearRestoresDraggedKnob(k: Knob, translation: real)
    ensures var d := Dragged(k, translation);
      Appeared(VolumeFor(d.dragX)) == Knob(d.dragX, d.dragX)
  {
  }

  /** The volumes a player can have (the initial one, or one written by a
      drag) all put the knob back on the track, so the missing clamp on
      appear never shows. */
  lemma AppearedOnTrack(volume: real)
    requires volume == InitialVolume || 0.0 <= volume <= 0.94
    ensures 0.0 <= Appeared(volume).dragX <= KnobMax
  {
  }

  /** A Subsonic player reduced to its volume. Its `play()` calls are
      counted by the screens that make them. */
  class AudioPlayer {
    var volume: real

    constructor(initial: real)
      ensures volume == initial
    {
      volume := initial;
    }
  }

  /** One slider: the knob's two positions and the player it controls. */
  class VolumeSlider {
    var dragX: real
    var lastDragX: real
    const player: AudioPlayer

    function State(): Knob
      reads this
    {
      Knob(dragX, lastDragX)
    }

    constructor(p: AudioPlayer)
      ensures player == p && State() == Knob(0.0, 0.0)
    {
      player := p;
      dragX, lastDragX := 0.0, 0.0;
    }

    method DragChanged(translation: real)
      modifies this`dragX, player`volume
      ensures State() == Dragged(old(State()), translation)
      ensures player.volume == VolumeFor(dragX) && 0.0 <= player.volume <= 0.94
    {
      var newX := lastDragX + translation;
      dragX := Clamp(newX);
      player.volume := dragX / TrackScale;
    }

    method DragEnded()
      modifies this`lastDragX
      ensures State() == Released(old(State()))
    {
      lastDragX := dragX;
    }

    method Appear()
      modifies this`dragX, this`lastDragX
      ensures State() == Appeared(player.volume)
    {
      var initialX := player.volume * TrackScale;
      dragX := initialX;
      lastDragX := initialX;
    }
  }

  /** The settings screen: a music slider and an effects slider, each on
      its own player. */
  class SettingsView {
    const music: VolumeSlider
    const fx: VolumeSlider

    ghost predicate Valid()
      reads this, music, fx
    {
      music != fx && music.player != fx.player
    }

    constructor(bgMusic: AudioPlayer, fxMusic: AudioPlayer)
      requires bgMusic != fxMusic
      ensures Valid() && music.player == bgMusic && fx.player == fxMusic
      ensures fresh(music) && fresh(fx)
      ensures music.State() == Knob(0.0, 0.0) && fx.State() == Knob(0.0, 0.0)
    {
      music := new VolumeSlider(bgMusic);
      fx := new VolumeSlider(fxMusic);
    }

    /** A drag on the music slider leaves the effects slider and its
        player alone. */
    method MusicDragChanged(translation: real)
      requires Valid()
      modifies music`dragX, music.player`volume
      ensures music.State() == Dragged(old(music.State()), translation)
      ensures music.player.volume == VolumeFor(music.dragX)
      ensures fx.State() == old(fx.State()) && fx.player.volume == old(fx.player.volume)
    {
      music.DragChanged(translation);
    }

    method MusicDragEnded()
      requires Valid()
      modifies music`lastDragX
      ensures music.State() == Released(old(music.State()))
      ensures fx.State() == old(fx.State())
    {
      music.DragEnded();
    }

    /** A drag on the effects slider leaves the music slider and its
        player alone. */
    method FxDragChanged(translation: real)
      requires Valid()
      modifies fx`dragX, fx.player`volume
      ensures fx.State() == Dragged(old(fx.State()), translation)
      ensures fx.player.volume == VolumeFor(fx.dragX)
      ensures music.State() == old(music.State()) && music.player.volume == old(music.player.volume)
    {
      fx.DragChanged(translation);
    }

    method FxDragEnded()
      requires Valid()
      modifies fx`lastDragX
      ensures fx.State() == Released(old(fx.State()))
      ensures music.State() == old(music.State())
    {
      fx.DragEnded();
    }

    /** `onAppear`: both knobs are read back from their players' volumes. */
    method Appear()
      requires Valid()
      modifies music`dragX, music`lastDragX, fx`dragX, fx`lastDragX
      ensures music.State() == Appeared(music.player.volume)
      ensures fx.State() == Appeared(fx.player.volume)
    {
      music.Appear();
      fx.Appear();
    }
  }
}
