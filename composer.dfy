/**
 * The composer: `build_enhancement_output` merges one phase-form record with
 * the scale and environment records and, when given, the era and affect
 * records, into a facet structure, an ordered list of prompt phrases and a
 * synthesized prompt; `enhance_nuclear_aesthetic` resolves the defaults and
 * the table lookups that feed it.
 *
 * A record argument of the builder is an `Option`: `None` stands for an empty
 * dictionary (or Python's `None`), which the server treats as false.
 */
module Composer {
  import opened Wrappers
  import opened Taxonomy
  import opened TextOps

  // ---------------------------------------------------------------------------
  // Reading the intrinsics record
  // ---------------------------------------------------------------------------

  /** The string-valued keys of a phase record that the builder reads. */
  datatype PhaseField =
    | LuminousRegime | Luminosity | Form | DurationReference
    | AtmosphericState | KeyVisual | Contrast

  /** `intrinsics.get(name)`: `None` when the record is empty, otherwise the named key's value. */
  function Get(intrinsics: Option<PhaseRecord>, field: PhaseField): (v: Option<string>)
    ensures v.Some? <==> intrinsics.Some?
    ensures intrinsics.Some? && field == LuminousRegime ==> v == Some(intrinsics.value.luminousRegime)
    ensures intrinsics.Some? && field == Luminosity ==> v == Some(intrinsics.value.luminosity)
    ensures intrinsics.Some? && field == Form ==> v == Some(intrinsics.value.form)
    ensures intrinsics.Some? && field == DurationReference ==> v == Some(intrinsics.value.durationReference)
    ensures intrinsics.Some? && field == AtmosphericState ==> v == Some(intrinsics.value.atmosphericState)
    ensures intrinsics.Some? && field == KeyVisual ==> v == Some(intrinsics.value.keyVisual)
    ensures intrinsics.Some? && field == Contrast ==> v == Some(intrinsics.value.contrast)
  {
    match intrinsics
    case None => None
    case Some(r) =>
      Some(match field
           case LuminousRegime => r.luminousRegime
           case Luminosity => r.luminosity
           case Form => r.form
           case DurationReference => r.durationReference
           case AtmosphericState => r.atmosphericState
           case KeyVisual => r.keyVisual
           case Contrast => r.contrast)
  }

  /** The colour temperature range used when a record has none. */
  const DefaultTemperature: TemperatureRange := TemperatureRange(5500, 6500)

  /** `intrinsics.get("color_temperature_k", (5500, 6500))`. */
  function ColorTemperature(intrinsics: Option<PhaseRecord>): (t: TemperatureRange)
    ensures intrinsics.None? ==> t == TemperatureRange(5500, 6500)
    ensures intrinsics.Some? ==> t == intrinsics.value.colorTemperatureK
  {
    match intrinsics
    case None => DefaultTemperature
    case Some(r) => r.colorTemperatureK
  }

  /** How an f-string renders a looked-up value: a missing one prints as `None`. */
  function Render(v: Option<string>): string {
    match v
    case Some(s) => s
    case None => "None"
  }

  // ---------------------------------------------------------------------------
  // The output structure
  // ---------------------------------------------------------------------------

  datatype Luminous = Luminous(
    regime: Option<string>,
    colorTemperatureK: TemperatureRange,
    luminosity: Option<string>,
    contrast: Option<string>)

  datatype Morphological = Morphological(form: Option<string>, keyVisual: Option<string>)

  datatype Atmospheric = Atmospheric(state: Option<string>)

  datatype Temporal = Temporal(durationReference: Option<string>)

  /** The facet contributed by an era record. */
  datatype Capture = Capture(colorScience: string, grain: string, camera: string)

  /** The facet contributed by an affect record. */
  datatype CompositionFacet = CompositionFacet(
    framing: string,
    emotionalRegister: string,
    detailFocus: string)

  /** `visual_parameters`: four mandatory facets and two optional ones (`None` = key absent). */
  datatype VisualParameters = VisualParameters(
    luminous: Luminous,
    morphological: Morphological,
    atmospheric: Atmospheric,
    temporal: Temporal,
    capture: Option<Capture>,
    composition: Option<CompositionFacet>)

  /**
   * `modifiers_applied`. The `scale` and `environment` keys are always present
   * (`None` there is an empty dictionary); `era` and `affect` are `None` exactly
   * when their key is absent.
   */
  datatype ModifiersApplied = ModifiersApplied(
    scale: Option<ScaleRecord>,
    environment: Option<EnvironmentRecord>,
    era: Option<EraRecord>,
    affect: Option<AffectRecord>)

  datatype EnhancementOutput = EnhancementOutput(
    originalPrompt: string,
    phaseForm: string,
    enhancedPromptElements: seq<string>,
    visualParameters: VisualParameters,
    modifiersApplied: ModifiersApplied,
    synthesizedPrompt: string)

  // ---------------------------------------------------------------------------
  // The prompt phrases, one group per record
  // ---------------------------------------------------------------------------

  /** Key visual, luminosity and form: always three phrases. */
  function PhasePhrases(intrinsics: Option<PhaseRecord>): seq<string> {
    [ "nuclear explosion, " + Render(Get(intrinsics, KeyVisual)),
      Render(Get(intrinsics, Luminosity)) + " lighting",
      Render(Get(intrinsics, Form)) + " morphology" ]
  }

  function ScalePhrases(scaleMods: Option<ScaleRecord>): seq<string> {
    match scaleMods
    case None => []
    case Some(s) => [s.verticalDevelopment + " vertical development", s.detailScale + " scale"]
  }

  /** The debris phrase appears only when the debris character is not "none". */
  function EnvironmentPhrases(envMods: Option<EnvironmentRecord>): seq<string> {
    match envMods
    case None => []
    case Some(e) =>
      (if e.debrisCharacter != "none" then [e.debrisCharacter + " debris"] else [])
      + [e.atmosphericEffect + " atmosphere"]
  }

  function EraPhrases(eraMods: Option<EraRecord>): seq<string> {
    match eraMods
    case None => []
    case Some(e) => [e.colorScience + " color", e.grainStructure, e.cameraCharacteristics + " perspective"]
  }

  function AffectPhrases(affectMods: Option<AffectRecord>): seq<string> {
    match affectMods
    case None => []
    case Some(a) => [a.framing, a.emotionalRegister + " mood"]
  }

  /** The phase, scale and environment phrases: the part that is always there. */
  function BasePhrases(
    intrinsics: Option<PhaseRecord>,
    scaleMods: Option<ScaleRecord>,
    envMods: Option<EnvironmentRecord>): seq<string>
  {
    PhasePhrases(intrinsics) + ScalePhrases(scaleMods) + EnvironmentPhrases(envMods)
  }

  /** The phrase list in its fixed order: phase, scale, environment, era, affect. */
  function PromptElements(
    intrinsics: Option<PhaseRecord>,
    scaleMods: Option<ScaleRecord>,
    envMods: Option<EnvironmentRecord>,
    eraMods: Option<EraRecord>,
    affectMods: Option<AffectRecord>): seq<string>
  {
    BasePhrases(intrinsics, scaleMods, envMods) + EraPhrases(eraMods) + AffectPhrases(affectMods)
  }

  // ---------------------------------------------------------------------------
  // Properties of the phrase list
  // ---------------------------------------------------------------------------

  /**
   * How many phrases there are: 3 for the phase, 2 for a scale, 1 or 2 for an
   * environment (2 exactly when its debris character is not "none"), 3 for an
   * era and 2 for an affect.
   */
  lemma ElementCount(
    intrinsics: Option<PhaseRecord>,
    scaleMods: Option<ScaleRecord>,
    envMods: Option<EnvironmentRecord>,
    eraMods: Option<EraRecord>,
    affectMods: Option<AffectRecord>)
    ensures |PromptElements(intrinsics, scaleMods, envMods, eraMods, affectMods)| ==
      3 + (if scaleMods.Some? then 2 else 0)
        + (if envMods.None? then 0 else if envMods.value.debrisCharacter != "none" then 2 else 1)
        + (if eraMods.Some? then 3 else 0)
        + (if affectMods.Some? then 2 else 0)
  {
  }

  /**
   * With the environment looked up in its table, the list has seven phrases
   * from the phase, scale and environment records (six in space, where the
   * debris character is "none"), three more with an era and two more with an
   * affect.
   */
  lemma ElementCountForEnvironment(
    intrinsics: Option<PhaseRecord>,
    scaleMods: ScaleRecord,
    environment: Environment,
    eraMods: Option<EraRecord>,
    affectMods: Option<AffectRecord>)
    ensures |PromptElements(intrinsics, Some(scaleMods), Some(EnvironmentModifiers(environment)), eraMods, affectMods)|
         == 6 + (if environment != Space then 1 else 0)
              + (if eraMods.Some? then 3 else 0) + (if affectMods.Some? then 2 else 0)
  {
    ElementCount(intrinsics, Some(scaleMods), Some(EnvironmentModifiers(environment)), eraMods, affectMods);
    DebrisNoneOnlyInSpace(environment);
  }

  /** The debris phrase is in the list exactly when the debris character is not "none". */
  lemma DebrisPhraseIff(env: EnvironmentRecord)
    ensures (env.debrisCharacter + " debris" in EnvironmentPhrases(Some(env))) <==> env.debrisCharacter != "none"
  {
    if env.debrisCharacter == "none" {
      var atmosphere := env.atmosphericEffect + " atmosphere";
      assert EnvironmentPhrases(Some(env)) == [atmosphere];
      assert env.debrisCharacter + " debris" == "none debris";
      if |env.atmosphericEffect| == 0 {
        assert atmosphere[0] == ' ';
      } else {
        assert |atmosphere| > 11;
      }
    }
  }

  /**
   * With a scale and an environment record present there are at least six
   * phrases before the era's, so the synthesized prompt takes exactly six
   * phrases, all from the phase, scale and environment records: the era and
   * affect records never reach it.
   */
  lemma FirstSixIgnoreEraAndAffect(
    intrinsics: Option<PhaseRecord>,
    scaleMods: ScaleRecord,
    envMods: EnvironmentRecord,
    eraMods: Option<EraRecord>,
    affectMods: Option<AffectRecord>)
    ensures |BasePhrases(intrinsics, Some(scaleMods), Some(envMods))| >= 6
    ensures Take(PromptElements(intrinsics, Some(scaleMods), Some(envMods), eraMods, affectMods), 6)
         == BasePhrases(intrinsics, Some(scaleMods), Some(envMods))[..6]
  {
    var base := BasePhrases(intrinsics, Some(scaleMods), Some(envMods));
    var all := PromptElements(intrinsics, Some(scaleMods), Some(envMods), eraMods, affectMods);
    assert all == base + (EraPhrases(eraMods) + AffectPhrases(affectMods));
    assert all[..6] == base[..6];
  }

  // ---------------------------------------------------------------------------
  // The builder and the tool entry point
  // ---------------------------------------------------------------------------

  /**
   * What `build_enhancement_output` returns for these records: the four
   * mandatory facets read from the phase record, the modifiers recorded as
   * given, the era and affect facets exactly when those records are given,
   * the phrase list and the prompt synthesized from at most six phrases.
   */
  predicate Built(
    output: EnhancementOutput,
    prompt: string,
    phaseForm: string,
    intrinsics: Option<PhaseRecord>,
    scaleMods: Option<ScaleRecord>,
    envMods: Option<EnvironmentRecord>,
    eraMods: Option<EraRecord>,
    affectMods: Option<AffectRecord>)
  {
    output.originalPrompt == prompt && output.phaseForm == phaseForm
    // the four mandatory facets are read from the intrinsics record
    && output.visualParameters.luminous == Luminous(
         Get(intrinsics, LuminousRegime), ColorTemperature(intrinsics),
         Get(intrinsics, Luminosity), Get(intrinsics, Contrast))
    && output.visualParameters.morphological == Morphological(Get(intrinsics, Form), Get(intrinsics, KeyVisual))
    && output.visualParameters.atmospheric == Atmospheric(Get(intrinsics, AtmosphericState))
    && output.visualParameters.temporal == Temporal(Get(intrinsics, DurationReference))
    // scale and environment are always recorded; era and affect only when given
    && output.modifiersApplied == ModifiersApplied(scaleMods, envMods, eraMods, affectMods)
    && (output.visualParameters.capture.Some? <==> eraMods.Some?)
    && (eraMods.Some? ==> output.visualParameters.capture.value == Capture(
          eraMods.value.colorScience, eraMods.value.grainStructure, eraMods.value.cameraCharacteristics))
    && (output.visualParameters.composition.Some? <==> affectMods.Some?)
    && (affectMods.Some? ==> output.visualParameters.composition.value == CompositionFacet(
          affectMods.value.framing, affectMods.value.emotionalRegister, affectMods.value.detailFocus))
    // the phrases, in their fixed order, and the prompt built from at most six of them
    && output.enhancedPromptElements == PromptElements(intrinsics, scaleMods, envMods, eraMods, affectMods)
    && output.synthesizedPrompt == prompt + ", " + Join(", ", Take(output.enhancedPromptElements, 6))
  }

  /**
   * A built output's synthesized prompt starts with the original prompt and
   * ", ", then joins all the phrases when there are at most six, and the
   * first six otherwise.
   */
  lemma SynthesizedPromptShape(
    output: EnhancementOutput,
    prompt: string,
    phaseForm: string,
    intrinsics: Option<PhaseRecord>,
    scaleMods: Option<ScaleRecord>,
    envMods: Option<EnvironmentRecord>,
    eraMods: Option<EraRecord>,
    affectMods: Option<AffectRecord>)
    requires Built(output, prompt, phaseForm, intrinsics, scaleMods, envMods, eraMods, affectMods)
    ensures prompt + ", " <= output.synthesizedPrompt
    ensures |output.enhancedPromptElements| <= 6 ==>
              output.synthesizedPrompt == prompt + ", " + Join(", ", output.enhancedPromptElements)
    ensures |output.enhancedPromptElements| > 6 ==>
              output.synthesizedPrompt == prompt + ", " + Join(", ", output.enhancedPromptElements[..6])
  {
    var rest := Join(", ", Take(output.enhancedPromptElements, 6));
    assert output.synthesizedPrompt == (prompt + ", ") + rest;
  }

  /**
   * Whatever era and affect records are given, a built output's synthesized
   * prompt is the original prompt followed by the first six phrases of the
   * phase, scale and environment records, and its phrase list is those
   * phrases followed by the era's and the affect's.
   */
  lemma SynthesisIgnoresEraAndAffect(
    output: EnhancementOutput,
    prompt: string,
    phaseForm: string,
    intrinsics: Option<PhaseRecord>,
    scaleMods: ScaleRecord,
    envMods: EnvironmentRecord,
    eraMods: Option<EraRecord>,
    affectMods: Option<AffectRecord>)
    requires Built(output, prompt, phaseForm, intrinsics, Some(scaleMods), Some(envMods), eraMods, affectMods)
    ensures output.synthesizedPrompt ==
              prompt + ", " + Join(", ", BasePhrases(intrinsics, Some(scaleMods), Some(envMods))[..6])
    ensures output.enhancedPromptElements ==
              BasePhrases(intrinsics, Some(scaleMods), Some(envMods)) + EraPhrases(eraMods) + AffectPhrases(affectMods)
  {
    FirstSixIgnoreEraAndAffect(intrinsics, scaleMods, envMods, eraMods, affectMods);
  }

  /**
   * `build_enhancement_output`: fills the output structure, adds the era and
   * affect entries only when those records are given, then appends the phrases
   * group by group and synthesizes the prompt from the first six.
   */
  method BuildEnhancementOutput(
    prompt: string,
    phaseForm: string,
    intrinsics: Option<PhaseRecord>,
    scaleMods: Option<ScaleRecord>,
    envMods: Option<EnvironmentRecord>,
    eraMods: Option<EraRecord>,
    affectMods: Option<AffectRecord>)
    returns (output: EnhancementOutput)
    ensures Built(output, prompt, phaseForm, intrinsics, scaleMods, envMods, eraMods, affectMods)
  {
    var tempRange := ColorTemperature(intrinsics);
    output := EnhancementOutput(
      prompt,
      phaseForm,
      [],
      VisualParameters(
        Luminous(Get(intrinsics, LuminousRegime), tempRange, Get(intrinsics, Luminosity), Get(intrinsics, Contrast)),
        Morphological(Get(intrinsics, Form), Get(intrinsics, KeyVisual)),
        Atmospheric(Get(intrinsics, AtmosphericState)),
        Temporal(Get(intrinsics, DurationReference)),
        None,
        None),
      ModifiersApplied(scaleMods, envMods, None, None),
      "");  // the synthesized prompt is set last

    if eraMods.Some? {
      var e := eraMods.value;
      output := output.(
        modifiersApplied := output.modifiersApplied.(era := Some(e)),
        visualParameters := output.visualParameters.(
          capture := Some(Capture(e.colorScience, e.grainStructure, e.cameraCharacteristics))));
    }

    if affectMods.Some? {
      var a := affectMods.value;
      output := output.(
        modifiersApplied := output.modifiersApplied.(affect := Some(a)),
        visualParameters := output.visualParameters.(
          composition := Some(CompositionFacet(a.framing, a.emotionalRegister, a.detailFocus))));
    }

    var elements := BuildPromptElements(intrinsics, scaleMods, envMods, eraMods, affectMods);

    output := output.(enhancedPromptElements := elements);
    output := output.(synthesizedPrompt := prompt + ", " + Join(", ", Take(elements, 6)));
  }

  /** The phrase-building half of `build_enhancement_output`: appends group by group. */
  method BuildPromptElements(
    intrinsics: Option<PhaseRecord>,
    scaleMods: Option<ScaleRecord>,
    envMods: Option<EnvironmentRecord>,
    eraMods: Option<EraRecord>,
    affectMods: Option<AffectRecord>)
    returns (elements: seq<string>)
    ensures elements == PromptElements(intrinsics, scaleMods, envMods, eraMods, affectMods)
  {
    elements := [
      "nuclear explosion, " + Render(Get(intrinsics, KeyVisual)),
      Render(Get(intrinsics, Luminosity)) + " lighting",
      Render(Get(intrinsics, Form)) + " morphology"
    ];
    assert elements == PhasePhrases(intrinsics);

    ghost var before := elements;
    if scaleMods.Some? {
      elements := elements + [scaleMods.value.verticalDevelopment + " vertical development"];
      elements := elements + [scaleMods.value.detailScale + " scale"];
    }
    assert elements == before + ScalePhrases(scaleMods);

    before := elements;
    if envMods.Some? {
      if envMods.value.debrisCharacter != "none" {
        elements := elements + [envMods.value.debrisCharacter + " debris"];
      }
      elements := elements + [envMods.value.atmosphericEffect + " atmosphere"];
    }
    assert elements == before + EnvironmentPhrases(envMods);

    before := elements;
    if eraMods.Some? {
      elements := elements + [eraMods.value.colorScience + " color"];
      elements := elements + [eraMods.value.grainStructure];
      elements := elements + [eraMods.value.cameraCharacteristics + " perspective"];
    }
    assert elements == before + EraPhrases(eraMods);

    before := elements;
    if affectMods.Some? {
      elements := elements + [affectMods.value.framing];
      elements := elements + [affectMods.value.emotionalRegister + " mood"];
    }
    assert elements == before + AffectPhrases(affectMods);
  }

  // ---------------------------------------------------------------------------
  // Resolving the tool's arguments to records
  // ---------------------------------------------------------------------------

  /** `PHASEFORM_INTRINSICS.get(phase_key, {})`: the fallback is never taken. */
  method ResolveIntrinsics(phaseForm: PhaseForm) returns (r: Option<PhaseRecord>)
    ensures r == Some(PhaseIntrinsics(phaseForm))
  {
    PhaseKeyRoundTrip(phaseForm);
    r := PhaseIntrinsicsByKey(phaseForm.Key());
  }

  /** The scale record, with "strategic" when no scale is given. */
  method ResolveScale(scale: Option<Scale>) returns (r: Option<ScaleRecord>)
    ensures r == Some(ScaleModifiers(scale.GetOr(Strategic)))
  {
    ScaleKeyRoundTrip(scale.GetOr(Strategic));
    r := ScaleModifiersByKey(if scale.Some? then scale.value.Key() else "strategic");
  }

  /** The environment record, with "airburst" when no environment is given. */
  method ResolveEnvironment(environment: Option<Environment>) returns (r: Option<EnvironmentRecord>)
    ensures r == Some(EnvironmentModifiers(environment.GetOr(Airburst)))
  {
    EnvironmentKeyRoundTrip(environment.GetOr(Airburst));
    r := EnvironmentModifiersByKey(if environment.Some? then environment.value.Key() else "airburst");
  }

  /** The era record when an era is given, and `None` otherwise. */
  method ResolveEra(era: Option<Era>) returns (r: Option<EraRecord>)
    ensures r.Some? <==> era.Some?
    ensures era.Some? ==> r.value == EraModifiers(era.value)
  {
    if era.Some? { EraKeyRoundTrip(era.value); r := EraModifiersByKey(era.value.Key()); } else { r := None; }
  }

  /** The affect record when an affect is given, and `None` otherwise. */
  method ResolveAffect(affect: Option<Affect>) returns (r: Option<AffectRecord>)
    ensures r.Some? <==> affect.Some?
    ensures affect.Some? ==> r.value == AffectModifiers(affect.value)
  {
    if affect.Some? { AffectKeyRoundTrip(affect.value); r := AffectModifiersByKey(affect.value.Key()); } else { r := None; }
  }

  /**
   * `enhance_nuclear_aesthetic` without its JSON encoding: scale defaults to
   * strategic, environment to airburst, era and affect to absent; every record
   * is looked up by its string key with the empty-record fallback, which the
   * round-trip lemmas show is never taken.
   */
  method EnhanceNuclearAesthetic(
    prompt: string,
    phaseForm: PhaseForm,
    scale: Option<Scale>,
    environment: Option<Environment>,
    era: Option<Era>,
    affect: Option<Affect>)
    returns (output: EnhancementOutput)
    ensures Built(output, prompt, phaseForm.Key(),
              Some(PhaseIntrinsics(phaseForm)),
              Some(ScaleModifiers(scale.GetOr(Strategic))),
              Some(EnvironmentModifiers(environment.GetOr(Airburst))),
              if era.Some? then Some(EraModifiers(era.value)) else None,
              if affect.Some? then Some(AffectModifiers(affect.value)) else None)
  {
    var phaseKey := phaseForm.Key();
    var intrinsics := ResolveIntrinsics(phaseForm);
    var scaleMods := ResolveScale(scale);
    var envMods := ResolveEnvironment(environment);
    var eraMods := ResolveEra(era);
    var affectMods := ResolveAffect(affect);

    output := BuildEnhancementOutput(prompt, phaseKey, intrinsics, scaleMods, envMods, eraMods, affectMods);
  }
}
