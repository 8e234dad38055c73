/**
 * The taxonomy store: five closed string enumerations (the phase form and the
 * four modifier dimensions) and the constant attribute record each value keys.
 *
 * Each enumeration is a datatype whose `Key()` is the enum's string value; the
 * tables are looked up by that string, as the server's dictionaries are, and a
 * key outside the table yields `None` (the server's `.get(key, {})` fallback).
 * The round-trip lemmas at the end prove that every enum value finds its record,
 * so the fallback is never taken for a validated input.
 */
module Taxonomy {
  import opened Wrappers

  // ---------------------------------------------------------------------------
  // Enumerations
  // ---------------------------------------------------------------------------

  /** Primary axis: the temporal-morphological phase, namespaced `group.subtype`. */
  datatype PhaseForm =
    | InitiationRadiantPoint | InitiationThermalBloom
    | FireballPlasmaCore | FireballSurfaceInstability | FireballExpansionFront
    | ShockCompressionDisc | ShockMachStem | ShockWilsonCloud
    | RiseVortexStem | RiseToroidalRoll | RiseCauliflowerCap
    | DispersalColumnCollapse | DispersalAnvilSpread | DispersalFalloutPlume
  {
    /** The enum's string value. */
    function Key(): string {
      match this
      case InitiationRadiantPoint => "initiation.radiant_point"
      case InitiationThermalBloom => "initiation.thermal_bloom"
      case FireballPlasmaCore => "fireball.plasma_core"
      case FireballSurfaceInstability => "fireball.surface_instability"
      case FireballExpansionFront => "fireball.expansion_front"
      case ShockCompressionDisc => "shock.compression_disc"
      case ShockMachStem => "shock.mach_stem"
      case ShockWilsonCloud => "shock.wilson_cloud"
      case RiseVortexStem => "rise.vortex_stem"
      case RiseToroidalRoll => "rise.toroidal_roll"
      case RiseCauliflowerCap => "rise.cauliflower_cap"
      case DispersalColumnCollapse => "dispersal.column_collapse"
      case DispersalAnvilSpread => "dispersal.anvil_spread"
      case DispersalFalloutPlume => "dispersal.fallout_plume"
    }

    /** Position in declaration order (the order in which the enum iterates). */
    function Ordinal(): nat {
      match this
      case InitiationRadiantPoint => 0
      case InitiationThermalBloom => 1
      case FireballPlasmaCore => 2
      case FireballSurfaceInstability => 3
      case FireballExpansionFront => 4
      case ShockCompressionDisc => 5
      case ShockMachStem => 6
      case ShockWilsonCloud => 7
      case RiseVortexStem => 8
      case RiseToroidalRoll => 9
      case RiseCauliflowerCap => 10
      case DispersalColumnCollapse => 11
      case DispersalAnvilSpread => 12
      case DispersalFalloutPlume => 13
    }
  }

  /** Iteration over the phase-form enum, in declaration order. */
  const AllPhaseForms: seq<PhaseForm> := [
    InitiationRadiantPoint, InitiationThermalBloom,
    FireballPlasmaCore, FireballSurfaceInstability, FireballExpansionFront,
    ShockCompressionDisc, ShockMachStem, ShockWilsonCloud,
    RiseVortexStem, RiseToroidalRoll, RiseCauliflowerCap,
    DispersalColumnCollapse, DispersalAnvilSpread, DispersalFalloutPlume
  ]

  /** Yield scale. */
  datatype Scale = Tactical | Strategic | Thermonuclear {
    function Key(): string {
      match this
      case Tactical => "tactical"
      case Strategic => "strategic"
      case Thermonuclear => "thermonuclear"
    }
  }

  const AllScales: seq<Scale> := [Tactical, Strategic, Thermonuclear]

  /** Detonation environment. */
  datatype Environment = Surface | Airburst | Underwater | Space | Underground {
    function Key(): string {
      match this
      case Surface => "surface"
      case Airburst => "airburst"
      case Underwater => "underwater"
      case Space => "space"
      case Underground => "underground"
    }
  }

  const AllEnvironments: seq<Environment> := [Surface, Airburst, Underwater, Space, Underground]

  /** Historical era of the capture. */
  datatype Era = Trinity | Pacific | Nevada | Modern {
    function Key(): string {
      match this
      case Trinity => "trinity"
      case Pacific => "pacific"
      case Nevada => "nevada"
      case Modern => "modern"
    }
  }

  const AllEras: seq<Era> := [Trinity, Pacific, Nevada, Modern]

  /** Affective intent. */
  datatype Affect = Sublime | Terrible | Clinical | Melancholic | Anxious | SacredProfane {
    function Key(): string {
      match this
      case Sublime => "sublime"
      case Terrible => "terrible"
      case Clinical => "clinical"
      case Melancholic => "melancholic"
      case Anxious => "anxious"
      case SacredProfane => "sacred_profane"
    }
  }

  const AllAffects: seq<Affect> := [Sublime, Terrible, Clinical, Melancholic, Anxious, SacredProfane]

  // ---------------------------------------------------------------------------
  // Attribute records
  // ---------------------------------------------------------------------------

  /** A colour temperature range in kelvin, the server's `(min, max)` tuple. */
  datatype TemperatureRange = TemperatureRange(min: int, max: int)

  /** The intrinsic properties bundled with a phase form. */
  datatype PhaseRecord = PhaseRecord(
    luminousRegime: string,
    colorTemperatureK: TemperatureRange,
    luminosity: string,
    form: string,
    durationReference: string,
    atmosphericState: string,
    keyVisual: string,
    contrast: string)

  /** A scale modifier; `colorShift` is `None` where the table holds Python's `None`. */
  datatype ScaleRecord = ScaleRecord(
    evolutionRate: string,
    verticalDevelopment: string,
    proportions: string,
    detailScale: string,
    colorShift: Option<string>)

  datatype EnvironmentRecord = EnvironmentRecord(
    groundInteraction: string,
    debrisCharacter: string,
    stemAppearance: string,
    atmosphericEffect: string,
    colorInfluence: string)

  datatype EraRecord = EraRecord(
    colorScience: string,
    grainStructure: string,
    cameraCharacteristics: string,
    frameQuality: string,
    aspectRatio: string)

  datatype AffectRecord = AffectRecord(
    framing: string,
    composition: string,
    lightingEmphasis: string,
    emotionalRegister: string,
    detailFocus: string)

  // ---------------------------------------------------------------------------
  // Tables, one record per enum value
  // ---------------------------------------------------------------------------

  /** The phase-form intrinsics table. */
  function PhaseIntrinsics(p: PhaseForm): PhaseRecord {
    match p
    case InitiationRadiantPoint => PhaseRecord(
      "thermal_bloom", TemperatureRange(15000, 50000), "extreme_overexposure",
      "point_source_expanding", "sub-microsecond", "pre-interaction",
      "pure white point, corona forming", "infinite_to_environment")
    case InitiationThermalBloom => PhaseRecord(
      "thermal_bloom", TemperatureRange(8000, 15000), "total_overexposure",
      "expanding_sphere_undifferentiated", "microseconds", "vacuum_formation",
      "white sphere consuming frame, no detail", "blown_highlights")
    case FireballPlasmaCore => PhaseRecord(
      "incandescence", TemperatureRange(5000, 8000), "self_illuminated_bright",
      "sphere_with_internal_structure", "early_milliseconds", "plasma_boundary",
      "orange-white sphere, hints of internal convection", "high_dynamic_range")
    case FireballSurfaceInstability => PhaseRecord(
      "incandescence", TemperatureRange(4000, 6000), "self_illuminated",
      "sphere_with_surface_perturbations", "milliseconds", "plasma_atmosphere_interface",
      "mottled surface, rope tricks, guy-wire vaporization", "texture_visible")
    case FireballExpansionFront => PhaseRecord(
      "incandescence_fading", TemperatureRange(3000, 5000), "bright_but_structured",
      "sphere_cooling_at_edges", "late_milliseconds", "shock_detaching",
      "orange core, darker cooling edges, shock separating", "medium_high")
    case ShockCompressionDisc => PhaseRecord(
      "reflected_flash", TemperatureRange(5500, 7000), "medium_reflected",
      "toroidal_compression_wave", "seconds", "compression_haze",
      "visible ring of compressed air, refraction effects", "subtle_atmospheric")
    case ShockMachStem => PhaseRecord(
      "reflected_flash", TemperatureRange(5000, 6000), "ground_reflection",
      "conical_ground_interaction", "seconds", "dust_entrainment",
      "dust skirt rising, ground shock visible, debris curtain", "environmental")
    case ShockWilsonCloud => PhaseRecord(
      "ambient_reflected", TemperatureRange(5500, 6500), "atmospheric_scatter",
      "condensation_disc_or_dome", "seconds", "condensation",
      "white vapor ring/dome, eerie transient cloud", "soft_ethereal")
    case RiseVortexStem => PhaseRecord(
      "self_illuminated_fading", TemperatureRange(2500, 4000), "internal_glow",
      "columnar_with_internal_vortices", "tens_of_seconds", "particulate_dense",
      "rising column, internal fire visible, debris entrainment", "dramatic_chiaroscuro")
    case RiseToroidalRoll => PhaseRecord(
      "mixed_internal_ambient", TemperatureRange(2000, 3500), "diminishing_internal",
      "toroidal_vortex_ring", "minute", "turbulent_mixing",
      "mushroom cap forming, rolling edges, vortex visible", "sculptural")
    case RiseCauliflowerCap => PhaseRecord(
      "ambient_dominant", TemperatureRange(5500, 6500), "externally_lit",
      "fractal_turbulent_mass", "minutes", "particulate_cloud",
      "baroque complexity, fractal edges, monumental scale", "cloud_like")
    case DispersalColumnCollapse => PhaseRecord(
      "ambient", TemperatureRange(5500, 6500), "daylight",
      "collapsing_vertical_structure", "minutes", "settling_particulate",
      "stem losing coherence, material falling back", "naturalistic")
    case DispersalAnvilSpread => PhaseRecord(
      "ambient", TemperatureRange(5500, 7000), "atmospheric",
      "horizontal_spreading_layer", "tens_of_minutes", "stratospheric_injection",
      "cap spreading horizontally, anvil formation", "high_altitude_clarity")
    case DispersalFalloutPlume => PhaseRecord(
      "ambient", TemperatureRange(5000, 6000), "hazy",
      "drifting_particulate_mass", "hours", "dispersed_contamination",
      "smeared across sky, ominous drift, entropic decay", "low_atmospheric")
  }

  /** The scale modifiers table; only the thermonuclear scale has a colour shift. */
  function ScaleModifiers(s: Scale): (r: ScaleRecord)
    ensures r.colorShift.Some? <==> s == Thermonuclear
  {
    match s
    case Tactical => ScaleRecord(
      "fast", "limited", "compact", "human_reference_visible", None)
    case Strategic => ScaleRecord(
      "canonical", "substantial", "classical_mushroom", "landscape_dwarfing", None)
    case Thermonuclear => ScaleRecord(
      "slow_majestic", "extreme", "towering_multi_stage", "horizon_spanning",
      Some("secondary_staging_visible"))
  }

  function EnvironmentModifiers(e: Environment): EnvironmentRecord {
    match e
    case Surface => EnvironmentRecord(
      "crater_formation", "earth_rock_heavy", "dirty_debris_laden",
      "dust_dominant", "earth_tones_mixed")
    case Airburst => EnvironmentRecord(
      "minimal_delayed", "atmospheric_only", "clean_plasma",
      "pure_shock_effects", "clean_plasma_colors")
    case Underwater => EnvironmentRecord(
      "water_column", "spray_and_steam", "wilson_column_dominant",
      "massive_steam_cauliflower", "white_steam_blue_water")
    case Space => EnvironmentRecord(
      "none", "none", "pure_plasma_sphere_only",
      "none_pure_expansion", "unfiltered_plasma_spectrum")
    case Underground => EnvironmentRecord(
      "contained_venting", "subsidence_crater", "vent_plumes_only",
      "localized_dust_jets", "earth_tones_dominant")
  }

  function EraModifiers(e: Era): EraRecord {
    match e
    case Trinity => EraRecord(
      "sepia_monochrome", "heavy_film_grain", "static_distant_tripod",
      "historical_degraded", "academic_4x3")
    case Pacific => EraRecord(
      "kodachrome_saturated", "medium_film_grain", "naval_observation",
      "military_documentary", "widescreen_naval")
    case Nevada => EraRecord(
      "desert_warm_tones", "newsreel_grain", "bunker_observation",
      "civil_defense_documentary", "television_4x3")
    case Modern => EraRecord(
      "digital_clean", "none_or_artificial", "impossible_angles",
      "pristine_cgi", "cinematic_wide")
  }

  function AffectModifiers(a: Affect): AffectRecord {
    match a
    case Sublime => AffectRecord(
      "emphasize_vertical_scale", "human_absence_or_dwarfed", "luminous_extremes",
      "overwhelming_awe", "totality_over_detail")
    case Terrible => AffectRecord(
      "destruction_vectors_visible", "before_after_implied", "harsh_revealing",
      "horror_power", "shock_effects_debris")
    case Clinical => AffectRecord(
      "documentary_centered", "measurement_reference", "neutral_informative",
      "detached_scientific", "phase_identification")
    case Melancholic => AffectRecord(
      "aftermath_emphasis", "entropy_visible", "fading_diffuse",
      "sorrow_contemplation", "decay_dispersal")
    case Anxious => AffectRecord(
      "anticipation_moment_before", "tension_building", "pre_flash_stillness",
      "dread_waiting", "countdown_infrastructure")
    case SacredProfane => AffectRecord(
      "altar_like_monumentality", "beauty_horror_tension", "transcendent_terrible",
      "ambivalent_awe", "simultaneous_beauty_destruction")
  }

  // ---------------------------------------------------------------------------
  // Lookups by string value: the enums' value lookup and the dictionaries' `.get`
  // ---------------------------------------------------------------------------

  /** The phase form whose string value is `key`, if there is one: a decoded form has that value. */
  function PhaseFormByKey(key: string): (r: Option<PhaseForm>)
    ensures r.Some? ==> r.value.Key() == key
  {
    match key
    case "initiation.radiant_point" => Some(InitiationRadiantPoint)
    case "initiation.thermal_bloom" => Some(InitiationThermalBloom)
    case "fireball.plasma_core" => Some(FireballPlasmaCore)
    case "fireball.surface_instability" => Some(FireballSurfaceInstability)
    case "fireball.expansion_front" => Some(FireballExpansionFront)
    case "shock.compression_disc" => Some(ShockCompressionDisc)
    case "shock.mach_stem" => Some(ShockMachStem)
    case "shock.wilson_cloud" => Some(ShockWilsonCloud)
    case "rise.vortex_stem" => Some(RiseVortexStem)
    case "rise.toroidal_roll" => Some(RiseToroidalRoll)
    case "rise.cauliflower_cap" => Some(RiseCauliflowerCap)
    case "dispersal.column_collapse" => Some(DispersalColumnCollapse)
    case "dispersal.anvil_spread" => Some(DispersalAnvilSpread)
    case "dispersal.fallout_plume" => Some(DispersalFalloutPlume)
    case _ => None
  }

  function ScaleByKey(key: string): (r: Option<Scale>)
    ensures r.Some? ==> r.value.Key() == key
  {
    match key
    case "tactical" => Some(Tactical)
    case "strategic" => Some(Strategic)
    case "thermonuclear" => Some(Thermonuclear)
    case _ => None
  }

  function EnvironmentByKey(key: string): (r: Option<Environment>)
    ensures r.Some? ==> r.value.Key() == key
  {
    match key
    case "surface" => Some(Surface)
    case "airburst" => Some(Airburst)
    case "underwater" => Some(Underwater)
    case "space" => Some(Space)
    case "underground" => Some(Underground)
    case _ => None
  }

  function EraByKey(key: string): (r: Option<Era>)
    ensures r.Some? ==> r.value.Key() == key
  {
    match key
    case "trinity" => Some(Trinity)
    case "pacific" => Some(Pacific)
    case "nevada" => Some(Nevada)
    case "modern" => Some(Modern)
    case _ => None
  }

  function AffectByKey(key: string): (r: Option<Affect>)
    ensures r.Some? ==> r.value.Key() == key
  {
    match key
    case "sublime" => Some(Sublime)
    case "terrible" => Some(Terrible)
    case "clinical" => Some(Clinical)
    case "melancholic" => Some(Melancholic)
    case "anxious" => Some(Anxious)
    case "sacred_profane" => Some(SacredProfane)
    case _ => None
  }

  /**
   * `PHASEFORM_INTRINSICS.get(key)`: the record stored under a string key, or
   * `None` for a key the table does not hold; a record is found only under
   * the value of the form it belongs to. The other four are alike.
   */
  function PhaseIntrinsicsByKey(key: string): (r: Option<PhaseRecord>)
    ensures r.Some? <==> PhaseFormByKey(key).Some?
    ensures r.Some? ==> r.value == PhaseIntrinsics(PhaseFormByKey(key).value)
  {
    match PhaseFormByKey(key)
    case Some(p) => Some(PhaseIntrinsics(p))
    case None => None
  }

  function ScaleModifiersByKey(key: string): (r: Option<ScaleRecord>)
    ensures r.Some? <==> ScaleByKey(key).Some?
    ensures r.Some? ==> r.value == ScaleModifiers(ScaleByKey(key).value)
  {
    match ScaleByKey(key)
    case Some(s) => Some(ScaleModifiers(s))
    case None => None
  }

  function EnvironmentModifiersByKey(key: string): (r: Option<EnvironmentRecord>)
    ensures r.Some? <==> EnvironmentByKey(key).Some?
    ensures r.Some? ==> r.value == EnvironmentModifiers(EnvironmentByKey(key).value)
  {
    match EnvironmentByKey(key)
    case Some(e) => Some(EnvironmentModifiers(e))
    case None => None
  }

  function EraModifiersByKey(key: string): (r: Option<EraRecord>)
    ensures r.Some? <==> EraByKey(key).Some?
    ensures r.Some? ==> r.value == EraModifiers(EraByKey(key).value)
  {
    match EraByKey(key)
    case Some(e) => Some(EraModifiers(e))
    case None => None
  }

  function AffectModifiersByKey(key: string): (r: Option<AffectRecord>)
    ensures r.Some? <==> AffectByKey(key).Some?
    ensures r.Some? ==> r.value == AffectModifiers(AffectByKey(key).value)
  {
    match AffectByKey(key)
    case Some(a) => Some(AffectModifiers(a))
    case None => None
  }

  // ---------------------------------------------------------------------------
  // Consistency of the tables with the enumerations
  // ---------------------------------------------------------------------------

  /** Every phase form finds its own record under its string value. */
  lemma PhaseKeyRoundTrip(p: PhaseForm)
    ensures PhaseFormByKey(p.Key()) == Some(p)
    ensures PhaseIntrinsicsByKey(p.Key()) == Some(PhaseIntrinsics(p))
  {
    if p.Ordinal() < 5 {
      EarlyPhaseKeys(p);
    } else if p.Ordinal() < 11 {
      MiddlePhaseKeys(p);
    } else {
      LatePhaseKeys(p);
    }
  }

  /** The round trip for the initiation and fireball forms. */
  lemma EarlyPhaseKeys(p: PhaseForm)
    requires p.Ordinal() < 5
    ensures PhaseFormByKey(p.Key()) == Some(p)
  {
    match p
    case InitiationRadiantPoint =>
    case InitiationThermalBloom =>
    case FireballPlasmaCore =>
    case FireballSurfaceInstability =>
    case FireballExpansionFront =>
  }

  /** The round trip for the shock and rise forms. */
  lemma MiddlePhaseKeys(p: PhaseForm)
    requires 5 <= p.Ordinal() < 11
    ensures PhaseFormByKey(p.Key()) == Some(p)
  {
    match p
    case ShockCompressionDisc =>
    case ShockMachStem =>
    case ShockWilsonCloud =>
    case RiseVortexStem =>
    case RiseToroidalRoll =>
    case RiseCauliflowerCap =>
  }

  /** The round trip for the dispersal forms. */
  lemma LatePhaseKeys(p: PhaseForm)
    requires 11 <= p.Ordinal()
    ensures PhaseFormByKey(p.Key()) == Some(p)
  {
    match p
    case DispersalColumnCollapse =>
    case DispersalAnvilSpread =>
    case DispersalFalloutPlume =>
  }

  lemma ScaleKeyRoundTrip(s: Scale)
    ensures ScaleByKey(s.Key()) == Some(s)
    ensures ScaleModifiersByKey(s.Key()) == Some(ScaleModifiers(s))
  {
    match s
    case Tactical =>
    case Strategic =>
    case Thermonuclear =>
  }

  lemma EnvironmentKeyRoundTrip(e: Environment)
    ensures EnvironmentByKey(e.Key()) == Some(e)
    ensures EnvironmentModifiersByKey(e.Key()) == Some(EnvironmentModifiers(e))
  {
    match e
    case Surface =>
    case Airburst =>
    case Underwater =>
    case Space =>
    case Underground =>
  }

  lemma EraKeyRoundTrip(e: Era)
    ensures EraByKey(e.Key()) == Some(e)
    ensures EraModifiersByKey(e.Key()) == Some(EraModifiers(e))
  {
    match e
    case Trinity =>
    case Pacific =>
    case Nevada =>
    case Modern =>
  }

  lemma AffectKeyRoundTrip(a: Affect)
    ensures AffectByKey(a.Key()) == Some(a)
    ensures AffectModifiersByKey(a.Key()) == Some(AffectModifiers(a))
  {
    match a
    case Sublime =>
    case Terrible =>
    case Clinical =>
    case Melancholic =>
    case Anxious =>
    case SacredProfane =>
  }

  /** Distinct phase forms have distinct string values, so no enum member is an alias. */
  lemma PhaseKeysDistinct(p: PhaseForm, q: PhaseForm)
    requires p.Key() == q.Key()
    ensures p == q
  {
    PhaseKeyRoundTrip(p);
    PhaseKeyRoundTrip(q);
  }

  /** A key finds a record in the phase form table exactly when it is the value of some phase form. */
  lemma PhaseLookupExact(key: string)
    ensures PhaseIntrinsicsByKey(key).Some? <==> exists p: PhaseForm :: p.Key() == key
  {
    if exists p: PhaseForm :: p.Key() == key {
      var p: PhaseForm :| p.Key() == key;
      PhaseKeyRoundTrip(p);
    }
  }

  /** A key finds a record in the scale table exactly when it is the value of some scale. */
  lemma ScaleLookupExact(key: string)
    ensures ScaleModifiersByKey(key).Some? <==> exists s: Scale :: s.Key() == key
  {
    if exists s: Scale :: s.Key() == key {
      var s: Scale :| s.Key() == key;
      ScaleKeyRoundTrip(s);
    }
  }

  /** A key finds a record in the environment table exactly when it is the value of some environment. */
  lemma EnvironmentLookupExact(key: string)
    ensures EnvironmentModifiersByKey(key).Some? <==> exists e: Environment :: e.Key() == key
  {
    if exists e: Environment :: e.Key() == key {
      var e: Environment :| e.Key() == key;
      EnvironmentKeyRoundTrip(e);
    }
  }

  /** A key finds a record in the era table exactly when it is the value of some era. */
  lemma EraLookupExact(key: string)
    ensures EraModifiersByKey(key).Some? <==> exists e: Era :: e.Key() == key
  {
    if exists e: Era :: e.Key() == key {
      var e: Era :| e.Key() == key;
      EraKeyRoundTrip(e);
    }
  }

  /** A key finds a record in the affect table exactly when it is the value of some affect. */
  lemma AffectLookupExact(key: string)
    ensures AffectModifiersByKey(key).Some? <==> exists a: Affect :: a.Key() == key
  {
    if exists a: Affect :: a.Key() == key {
      var a: Affect :| a.Key() == key;
      AffectKeyRoundTrip(a);
    }
  }

  /**
   * Iterating the enum visits every phase form exactly once, in declaration
   * order: the sequence has fourteen entries and entry i has ordinal i.
   */
  lemma AllPhaseFormsEnumerates()
    ensures |AllPhaseForms| == 14
    ensures forall i :: 0 <= i < |AllPhaseForms| ==> AllPhaseForms[i].Ordinal() == i
    ensures forall p: PhaseForm :: p.Ordinal() < |AllPhaseForms| && AllPhaseForms[p.Ordinal()] == p
  {
    forall p: PhaseForm
      ensures p.Ordinal() < |AllPhaseForms| && AllPhaseForms[p.Ordinal()] == p
    {
      match p
      case InitiationRadiantPoint =>
      case InitiationThermalBloom =>
      case FireballPlasmaCore =>
      case FireballSurfaceInstability =>
      case FireballExpansionFront =>
      case ShockCompressionDisc =>
      case ShockMachStem =>
      case ShockWilsonCloud =>
      case RiseVortexStem =>
      case RiseToroidalRoll =>
      case RiseCauliflowerCap =>
      case DispersalColumnCollapse =>
      case DispersalAnvilSpread =>
      case DispersalFalloutPlume =>
    }
  }

  /** Only the space environment has debris character "none". */
  lemma DebrisNoneOnlyInSpace(e: Environment)
    ensures EnvironmentModifiers(e).debrisCharacter == "none" <==> e == Space
  {
    match e
    case Surface =>
    case Airburst =>
    case Underwater =>
    case Space =>
    case Underground =>
  }
}
