/**
 * The game's static configuration (src/game/constants.js): world scale,
 * battery economy, ambient light and the depth-zone table.
 */
module Config {

  const PIXELS_PER_METER: real := 10.0
  const MAX_WORLD_DEPTH: real := 11000.0 * PIXELS_PER_METER
  const SPOTLIGHT_MAX_BATTERY: real := 100.0
  const SPOTLIGHT_DRAIN_RATE: real := 0.01
  const SPOTLIGHT_CHARGE_RATE: real := 0.03
  // The spotlight geometry constants are declared by the configuration but the
  // frame loop uses its own hard-coded cone (see Frame.SpotlightCone).
  const SPOTLIGHT_HORIZONTAL_OFFSET: real := 1.0
  const SPOTLIGHT_VERTICAL_OFFSET: real := 0.65
  const SPOTLIGHT_LENGTH: real := 350.0
  const SPOTLIGHT_WIDTH_AT_END: real := 150.0
  const AMBIENT_LIGHT_RADIUS: real := 100.0
  const AMBIENT_LIGHT_MAX_OPACITY: real := 0.6

  /** One depth band: where it starts (in world pixels), its colour and how dark it is. */
  datatype Zone = Zone(depth: real, name: string, r: int, g: int, b: int, darknessLevel: real)

  const ZONE_COLORS: seq<Zone> := [
    Zone(0.0 * PIXELS_PER_METER, "Zona Epipelágica (Fótica)", 26, 58, 94, 0.0),
    Zone(200.0 * PIXELS_PER_METER, "Zona Mesopelágica (Crepuscular)", 10, 30, 60, 0.4),
    Zone(300.0 * PIXELS_PER_METER, "Zona de Transición Oscura", 5, 10, 20, 0.95),
    Zone(1000.0 * PIXELS_PER_METER, "Zona Batipelágica (Oscura)", 5, 15, 30, 0.98),
    Zone(4000.0 * PIXELS_PER_METER, "Zona Abisopelágica (Abisal)", 0, 0, 10, 0.99),
    Zone(6000.0 * PIXELS_PER_METER, "Zona Hadopelágica (Fosas Oceánicas)", 0, 0, 0, 1.0)
  ]

  predicate StrictlyIncreasingDepths(zones: seq<Zone>)
  {
    forall i, j :: 0 <= i < j < |zones| ==> zones[i].depth < zones[j].depth
  }

  predicate DarknessInUnitRange(zones: seq<Zone>)
  {
    forall i :: 0 <= i < |zones| ==> 0.0 <= zones[i].darknessLevel <= 1.0
  }

  predicate NonDecreasingDarkness(zones: seq<Zone>)
  {
    forall i, j :: 0 <= i < j < |zones| ==> zones[i].darknessLevel <= zones[j].darknessLevel
  }

  /** What the zone lookup and the darkness interpolation rely on. */
  predicate ValidZoneTable(zones: seq<Zone>)
  {
    && |zones| > 0
    && zones[0].depth == 0.0
    && StrictlyIncreasingDepths(zones)
    && DarknessInUnitRange(zones)
  }

  lemma ZoneTableIsValid()
    ensures ValidZoneTable(ZONE_COLORS)
    ensures NonDecreasingDarkness(ZONE_COLORS)
    ensures forall i :: 0 <= i < |ZONE_COLORS| ==> ZONE_COLORS[i].depth < MAX_WORLD_DEPTH
  {
  }

  lemma ConstantsAreSane()
    ensures PIXELS_PER_METER > 0.0
    ensures MAX_WORLD_DEPTH == 110000.0
    ensures 0.0 < SPOTLIGHT_DRAIN_RATE < SPOTLIGHT_MAX_BATTERY
    ensures 0.0 < SPOTLIGHT_CHARGE_RATE < SPOTLIGHT_MAX_BATTERY
    ensures AMBIENT_LIGHT_RADIUS > 0.0
  {
  }
}
