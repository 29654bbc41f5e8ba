/** The moving things of a game session: the hazard record of Spike.swift
    and the two power-up records declared at the top of GameScreenView.swift. */
module Entities {
  import opened Geometry

  /** A hazard. `id` stands for the record's UUID: the session hands out
      identifiers from a counter, so two spikes never share one. */
  datatype Spike = Spike(
    id: nat,
    position: Point,
    direction: Vector,
    angle: real,
    speed: real,
    creationTime: real)

  predicate IdBefore(a: Spike, b: Spike) { a.id < b.id }

  /** Identifiers grow along the list, so no two spikes share one. */
  predicate IdsIncreasing(ks: seq<Spike>)
  {
    forall i, j {:trigger IdBefore(ks[i], ks[j])} :: 0 <= i < j < |ks| ==> IdBefore(ks[i], ks[j])
  }

  /** A pickup that makes the player bomb-active; same shape as a spike. */
  datatype BombBubble = BombBubble(
    position: Point,
    direction: Vector,
    angle: real,
    speed: real,
    creationTime: real)

  /** A pickup that slows the spikes down. `angle` is in degrees;
      `speed` is in points per tick. */
  datatype TimerBubble = TimerBubble(
    position: Point,
    angle: real,
    speed: real,
    sineOffset: real)
}
