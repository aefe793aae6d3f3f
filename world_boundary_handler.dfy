/**
 * The world boundary: a player (or the entity they ride) crossing the east/west
 * edge reappears 5 blocks inside the opposite edge, and likewise across the
 * polar limit along z.  Only the coordinate computation is modelled; moving the
 * entity, sounds, particles and packets are side effects outside the model.
 */
module WorldBoundaryHandler {
  import opened Biomes
  import opened JavaMath

  /** The inset from the opposite edge at which a wrapped coordinate lands. */
  const WRAP_INSET: int := 5

  /** `MAX_PLANET_WIDTH`: the configured world width less 200. */
  function PlanetWidthLimit(maxWorldWidth: int): (w: int)
    ensures w < maxWorldWidth
  {
    maxWorldWidth - 200
  }

  /** `POLAR_Z_LIMIT`: 80% of the configured world height, truncated to an int. */
  function PolarZLimit(maxWorldHeight: int): (p: int)
    ensures maxWorldHeight >= 0 ==> p == (4 * maxWorldHeight) / 5
  {
    var h := maxWorldHeight as real;
    var limit := Trunc(h - h * 0.2);
    if maxWorldHeight >= 0 then
      FourFifthsFloor(maxWorldHeight);
      limit
    else limit
  }

  /** For a non-negative height, truncating 0.8 * h is the integer quotient of 4h by 5. */
  lemma FourFifthsFloor(h: int)
    requires h >= 0
    ensures Trunc(h as real - h as real * 0.2) == (4 * h) / 5
  {
    var q, r := (4 * h) / 5, (4 * h) % 5;
    assert 4 * h == 5 * q + r && 0 <= r < 5;
    var v := h as real - h as real * 0.2;
    assert v == q as real + r as real / 5.0;
    assert q as real <= v < q as real + 1.0;
    assert v.Floor == q;
  }

  /** With the default world size of 10000 the edges sit at x = ±9800 and z = ±8000. */
  lemma DefaultLimits()
    ensures PlanetWidthLimit(10000) == 9800
    ensures PolarZLimit(10000) == 8000
  {
  }

  /**
   * One axis of `handlePlayerTeleportation`: at or past the positive limit the
   * coordinate jumps to -limit + 5, at or past the negative limit to limit - 5,
   * and is otherwise kept; the flag says whether it jumped.
   */
  function WrapAxis(c: real, limit: int): (r: (real, bool))
    ensures r.1 <==> c >= limit as real || c <= -limit as real
    ensures !r.1 ==> r.0 == c
    ensures c >= limit as real ==> r.0 == (WRAP_INSET - limit) as real
    ensures c < limit as real && c <= -limit as real ==> r.0 == (limit - WRAP_INSET) as real
  {
    if c >= limit as real then ((-limit + WRAP_INSET) as real, true)
    else if c <= -limit as real then ((limit - WRAP_INSET) as real, true)
    else (c, false)
  }

  /** For a limit above the inset every result lies strictly inside the band, so it does not trigger again. */
  lemma WrapLandsInside(c: real, limit: int)
    requires limit > WRAP_INSET
    ensures -limit as real < WrapAxis(c, limit).0 < limit as real
    ensures WrapAxis(WrapAxis(c, limit).0, limit) == (WrapAxis(c, limit).0, false)
  {
  }

  /** Crossing one edge lands 5 blocks inside the other: a wrap moves the coordinate to the opposite side. */
  lemma WrapCrossesSides(c: real, limit: int)
    requires limit > WRAP_INSET
    ensures c >= limit as real ==> WrapAxis(c, limit).0 < 0.0
    ensures c <= -limit as real ==> WrapAxis(c, limit).0 > 0.0
  {
  }

  /** An entity position in blocks. */
  datatype Position = Position(x: real, y: real, z: real)

  /**
   * `handlePlayerTeleportation`: on the client nothing happens (None); on the
   * server the tested entity is the ridden one when riding, otherwise the player.
   * The result is the destination of the teleport, or None when neither axis
   * wrapped; y never changes.
   */
  function HandlePlayerTeleportation(isRemote: bool, player: Position, ridden: Option<Position>,
                                     maxWorldWidth: int, maxWorldHeight: int): (dest: Option<Position>)
    ensures isRemote ==> dest.None?
    ensures !isRemote ==>
      var e := if ridden.Some? then ridden.value else player;
      var w, p := PlanetWidthLimit(maxWorldWidth), PolarZLimit(maxWorldHeight);
      (dest.Some? <==> WrapAxis(e.x, w).1 || WrapAxis(e.z, p).1) &&
      (dest.Some? ==> dest.value == Position(WrapAxis(e.x, w).0, e.y, WrapAxis(e.z, p).0))
  {
    if isRemote then None
    else
      var entity := if ridden.Some? then ridden.value else player;
      var (x, wrappedX) := WrapAxis(entity.x, PlanetWidthLimit(maxWorldWidth));
      var (z, wrappedZ) := WrapAxis(entity.z, PolarZLimit(maxWorldHeight));
      if wrappedX || wrappedZ then Some(Position(x, entity.y, z)) else None
  }

  /**
   * Inside the world bounds nothing moves; a teleport destination is strictly
   * inside both bands whenever the limits exceed the inset, and keeps the height.
   */
  lemma TeleportStaysInside(player: Position, ridden: Option<Position>, maxWorldWidth: int, maxWorldHeight: int)
    requires PlanetWidthLimit(maxWorldWidth) > WRAP_INSET && PolarZLimit(maxWorldHeight) > WRAP_INSET
    ensures var dest := HandlePlayerTeleportation(false, player, ridden, maxWorldWidth, maxWorldHeight);
      var e := if ridden.Some? then ridden.value else player;
      var w, p := PlanetWidthLimit(maxWorldWidth) as real, PolarZLimit(maxWorldHeight) as real;
      (dest.None? <==> (-w < e.x < w && -p < e.z < p)) &&
      (dest.Some? ==> -w < dest.value.x < w && -p < dest.value.z < p && dest.value.y == e.y)
  {
    var e := if ridden.Some? then ridden.value else player;
    WrapLandsInside(e.x, PlanetWidthLimit(maxWorldWidth));
    WrapLandsInside(e.z, PolarZLimit(maxWorldHeight));
  }
}
