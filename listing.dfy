/**
 * The read-only catalogue tools: `list_phase_forms` with its optional prefix
 * filter, `get_phase_form_details` and `list_modifiers`.
 */
module Listing {
  import opened Wrappers
  import opened Taxonomy
  import opened TextOps
  import opened Composer

  // ---------------------------------------------------------------------------
  // list_phase_forms
  // ---------------------------------------------------------------------------

  /** One entry of the phase-form listing; a field missing from the record reads as "". */
  datatype PhaseListing = PhaseListing(
    phaseForm: string,
    keyVisual: string,
    durationReference: string,
    luminousRegime: string)

  /**
   * The filter test: an absent or empty filter lets every form through;
   * otherwise the whole key must start with the lower-cased filter.
   */
  predicate PassesFilter(phaseFilter: Option<string>, p: PhaseForm) {
    match phaseFilter
    case None => true
    case Some(f) => f == [] || Lower(f) <= p.Key()
  }

  /** The listing entry of `p`: its key and three fields of its record. */
  function ListingOf(p: PhaseForm): PhaseListing {
    PhaseListing(
      p.Key(), PhaseIntrinsics(p).keyVisual,
      PhaseIntrinsics(p).durationReference, PhaseIntrinsics(p).luminousRegime)
  }

  /** The forms of `forms` that pass the filter, in the order of `forms`. */
  function FilteredForms(phaseFilter: Option<string>, forms: seq<PhaseForm>): seq<PhaseForm>
    decreases |forms|
  {
    if forms == [] then []
    else
      var last := forms[|forms| - 1];
      FilteredForms(phaseFilter, forms[..|forms| - 1]) + (if PassesFilter(phaseFilter, last) then [last] else [])
  }

  /** The listing entries of `forms`, one per form and in the same order. */
  function Listings(forms: seq<PhaseForm>): (r: seq<PhaseListing>)
    ensures |r| == |forms|
    decreases |forms|
  {
    if forms == [] then [] else Listings(forms[..|forms| - 1]) + [ListingOf(forms[|forms| - 1])]
  }

  /** The `i`-th entry is the listing of the `i`-th form. */
  lemma {:induction false} ListingsAt(forms: seq<PhaseForm>, i: nat)
    requires i < |forms|
    ensures Listings(forms)[i] == ListingOf(forms[i])
    decreases |forms|
  {
    if i < |forms| - 1 {
      ListingsAt(forms[..|forms| - 1], i);
    }
  }

  /** Listing one more form appends its entry. */
  lemma ListingsSnoc(forms: seq<PhaseForm>, p: PhaseForm)
    ensures Listings(forms + [p]) == Listings(forms) + [ListingOf(p)]
  {
    assert (forms + [p])[..|forms|] == forms;
  }

  /** No two forms share a listing entry: the entry carries the form's key. */
  lemma ListingInjective(p: PhaseForm, q: PhaseForm)
    requires ListingOf(p) == ListingOf(q)
    ensures p == q
  {
    PhaseKeysDistinct(p, q);
  }

  /** A form is listed only when it is one of the forms. */
  lemma ListedOnlyFromForms(forms: seq<PhaseForm>, p: PhaseForm)
    requires ListingOf(p) in Listings(forms)
    ensures p in forms
  {
    var listed := Listings(forms);
    var i :| 0 <= i < |listed| && listed[i] == ListingOf(p);
    ListingsAt(forms, i);
    ListingInjective(forms[i], p);
  }

  /** Each of the forms is listed. */
  lemma FormsAreListed(forms: seq<PhaseForm>, p: PhaseForm)
    requires p in forms
    ensures ListingOf(p) in Listings(forms)
  {
    var i :| 0 <= i < |forms| && forms[i] == p;
    ListingsAt(forms, i);
  }

  /** A form is listed exactly when it is one of the forms. */
  lemma ListingsMembership(forms: seq<PhaseForm>, p: PhaseForm)
    ensures ListingOf(p) in Listings(forms) <==> p in forms
  {
    if ListingOf(p) in Listings(forms) {
      ListedOnlyFromForms(forms, p);
    }
    if p in forms {
      FormsAreListed(forms, p);
    }
  }

  /** Every listed entry is the listing of one of the forms. */
  lemma ListingsOnly(forms: seq<PhaseForm>, e: PhaseListing)
    requires e in Listings(forms)
    ensures exists q :: q in forms && e == ListingOf(q)
  {
    var listed := Listings(forms);
    var i :| 0 <= i < |listed| && listed[i] == e;
    ListingsAt(forms, i);
    assert forms[i] in forms;
  }

  /** The specification of `list_phase_forms`. */
  function ListedPhaseForms(phaseFilter: Option<string>): seq<PhaseListing> {
    Listings(FilteredForms(phaseFilter, AllPhaseForms))
  }

  /** A form is selected exactly when it is one of the forms and passes the filter. */
  lemma {:induction false} FilteredMembership(phaseFilter: Option<string>, forms: seq<PhaseForm>, p: PhaseForm)
    ensures p in FilteredForms(phaseFilter, forms) <==> p in forms && PassesFilter(phaseFilter, p)
    decreases |forms|
  {
    if forms != [] {
      var init := forms[..|forms| - 1];
      FilteredMembership(phaseFilter, init, p);
      assert forms == init + [forms[|forms| - 1]];
    }
  }

  /** Forms in declaration order. */
  predicate Ascending(forms: seq<PhaseForm>) {
    forall i, j :: 0 <= i < j < |forms| ==> forms[i].Ordinal() < forms[j].Ordinal()
  }

  /** Every form selected from the others comes before the last form. */
  lemma SelectedPrecedeLast(phaseFilter: Option<string>, forms: seq<PhaseForm>, k: nat)
    requires forms != [] && Ascending(forms)
    requires k < |FilteredForms(phaseFilter, forms[..|forms| - 1])|
    ensures FilteredForms(phaseFilter, forms[..|forms| - 1])[k].Ordinal() < forms[|forms| - 1].Ordinal()
  {
    var init := forms[..|forms| - 1];
    var before := FilteredForms(phaseFilter, init);
    FilteredMembership(phaseFilter, init, before[k]);
    var j :| 0 <= j < |init| && init[j] == before[k];
    assert forms[j] == init[j];
  }

  /** Selection keeps the order of the forms: from forms in declaration order, so is the result. */
  lemma {:induction false} FilteredInOrder(phaseFilter: Option<string>, forms: seq<PhaseForm>)
    requires Ascending(forms)
    ensures Ascending(FilteredForms(phaseFilter, forms))
    decreases |forms|
  {
    if forms != [] {
      var init := forms[..|forms| - 1];
      var before := FilteredForms(phaseFilter, init);
      FilteredInOrder(phaseFilter, init);
      forall k | 0 <= k < |before| ensures before[k].Ordinal() < forms[|forms| - 1].Ordinal() {
        SelectedPrecedeLast(phaseFilter, forms, k);
      }
    }
  }

  /** Looking at one more form appends it when it passes. */
  lemma FilteredExtend(phaseFilter: Option<string>, forms: seq<PhaseForm>, i: nat)
    requires i < |forms|
    ensures FilteredForms(phaseFilter, forms[..i + 1]) ==
              FilteredForms(phaseFilter, forms[..i]) + (if PassesFilter(phaseFilter, forms[i]) then [forms[i]] else [])
  {
    assert forms[..i + 1][..i] == forms[..i];
  }

  /** Selecting from two runs of forms selects from each in turn. */
  lemma {:induction false} FilteredAppend(phaseFilter: Option<string>, a: seq<PhaseForm>, b: seq<PhaseForm>)
    ensures FilteredForms(phaseFilter, a + b) == FilteredForms(phaseFilter, a) + FilteredForms(phaseFilter, b)
    decreases |b|
  {
    if b == [] {
      assert a + b == a;
    } else {
      var init := b[..|b| - 1];
      FilteredAppend(phaseFilter, a, init);
      assert (a + b)[..|a + b| - 1] == a + init;
      assert (a + b)[|a + b| - 1] == b[|b| - 1];
    }
  }

  /** When every form passes, selection keeps them all. */
  lemma {:induction false} FilteredAllPass(phaseFilter: Option<string>, forms: seq<PhaseForm>)
    requires forall i :: 0 <= i < |forms| ==> PassesFilter(phaseFilter, forms[i])
    ensures FilteredForms(phaseFilter, forms) == forms
    decreases |forms|
  {
    if forms != [] {
      FilteredAllPass(phaseFilter, forms[..|forms| - 1]);
      assert forms == forms[..|forms| - 1] + [forms[|forms| - 1]];
    }
  }

  /** When no form passes, nothing is selected. */
  lemma {:induction false} FilteredNonePass(phaseFilter: Option<string>, forms: seq<PhaseForm>)
    requires forall i :: 0 <= i < |forms| ==> !PassesFilter(phaseFilter, forms[i])
    ensures FilteredForms(phaseFilter, forms) == []
    decreases |forms|
  {
    if forms != [] {
      FilteredNonePass(phaseFilter, forms[..|forms| - 1]);
    }
  }

  /**
   * `list_phase_forms` lists a form exactly when its key starts with the
   * lower-cased filter (or there is no filter), with nothing else in the list.
   */
  lemma ListedIff(phaseFilter: Option<string>, p: PhaseForm)
    ensures ListingOf(p) in ListedPhaseForms(phaseFilter) <==> PassesFilter(phaseFilter, p)
    ensures forall e :: e in ListedPhaseForms(phaseFilter) ==>
              exists q :: e == ListingOf(q) && PassesFilter(phaseFilter, q)
  {
    var selected := FilteredForms(phaseFilter, AllPhaseForms);
    AllPhaseFormsEnumerates();
    assert AllPhaseForms[p.Ordinal()] == p;
    FilteredMembership(phaseFilter, AllPhaseForms, p);
    ListingsMembership(selected, p);
    forall e | e in Listings(selected) ensures exists q :: e == ListingOf(q) && PassesFilter(phaseFilter, q) {
      ListingsOnly(selected, e);
      var q :| q in selected && e == ListingOf(q);
      FilteredMembership(phaseFilter, AllPhaseForms, q);
    }
  }

  /** The listing follows declaration order and, without a filter, holds all fourteen forms. */
  lemma ListedInOrder(phaseFilter: Option<string>)
    ensures Ascending(FilteredForms(phaseFilter, AllPhaseForms))
    ensures phaseFilter == None || phaseFilter == Some("") ==>
              ListedPhaseForms(phaseFilter) == Listings(AllPhaseForms) && |ListedPhaseForms(phaseFilter)| == 14
  {
    AllPhaseFormsEnumerates();
    FilteredInOrder(phaseFilter, AllPhaseForms);
    if phaseFilter == None || phaseFilter == Some("") {
      FilteredAllPass(phaseFilter, AllPhaseForms);
    }
  }

  /** The filter ignores the case of its ASCII letters. */
  lemma FilterIgnoresCase(f: string, p: PhaseForm)
    ensures PassesFilter(Some(f), p) <==> PassesFilter(Some(Lower(f)), p)
  {
    LowerIdempotent(f);
  }

  /** "FIREBALL" admits fireball.plasma_core: the filter is lower-cased first. */
  lemma UpperCaseFilterExample()
    ensures PassesFilter(Some("FIREBALL"), FireballPlasmaCore)
  {
    assert Lower("FIREBALL") == "fireball";
  }

  /**
   * "plasma_core", the name of fireball.plasma_core within its group, does not
   * admit it: the filter is a prefix of the whole key, not a group or a name.
   */
  lemma FilterOnWholeKey()
    ensures !PassesFilter(Some("plasma_core"), FireballPlasmaCore)
  {
    assert Lower("plasma_core")[0] == 'p';
    assert FireballPlasmaCore.Key()[0] == 'f';
  }

  /**
   * One pass of the loop's body: looks the record up by the form's string
   * value, reading "" for a field it lacks; the lookup always succeeds, so
   * the entry carries the form's own key visual, duration reference and
   * luminous regime.
   */
  method ListingEntry(p: PhaseForm) returns (entry: PhaseListing)
    ensures entry == ListingOf(p)
  {
    var phaseKey := p.Key();
    var intrinsics := PhaseIntrinsicsByKey(phaseKey);
    PhaseKeyRoundTrip(p);
    entry := PhaseListing(
      phaseKey,
      Get(intrinsics, KeyVisual).GetOr(""),
      Get(intrinsics, DurationReference).GetOr(""),
      Get(intrinsics, LuminousRegime).GetOr(""));
  }

  /** The loop of `list_phase_forms` over `forms`: skips rejected forms, lists the others. */
  method ListForms(phaseFilter: Option<string>, forms: seq<PhaseForm>) returns (results: seq<PhaseListing>)
    ensures results == Listings(FilteredForms(phaseFilter, forms))
  {
    results := [];
    ghost var selected: seq<PhaseForm> := [];  // the forms listed so far
    var i := 0;
    while i < |forms|
      invariant 0 <= i <= |forms|
      invariant selected == FilteredForms(phaseFilter, forms[..i])
      invariant results == Listings(selected)
    {
      var phaseForm := forms[i];
      FilteredExtend(phaseFilter, forms, i);
      if PassesFilter(phaseFilter, phaseForm) {
        var entry := ListingEntry(phaseForm);
        ListingsSnoc(selected, phaseForm);
        selected := selected + [phaseForm];
        results := results + [entry];
      }
      i := i + 1;
    }
    assert forms[..i] == forms;
  }

  /**
   * `list_phase_forms`: walks the phase forms in declaration order, skips
   * those the filter rejects and appends an entry for each of the others.
   */
  method ListPhaseForms(phaseFilter: Option<string>) returns (results: seq<PhaseListing>)
    ensures results == ListedPhaseForms(phaseFilter)
  {
    results := ListForms(phaseFilter, AllPhaseForms);
  }

  // ---------------------------------------------------------------------------
  // get_phase_form_details
  // ---------------------------------------------------------------------------

  /** The details of one phase form: its whole record and the modifier values it combines with. */
  datatype PhaseFormDetails = PhaseFormDetails(
    phaseForm: string,
    intrinsicProperties: Option<PhaseRecord>,
    scales: seq<string>,
    environments: seq<string>,
    eras: seq<string>,
    affects: seq<string>)

  /** `[s.value for s in Scale]`. */
  function ScaleKeys(): (r: seq<string>)
    ensures r == ["tactical", "strategic", "thermonuclear"]
  {
    seq(|AllScales|, i requires 0 <= i < |AllScales| => AllScales[i].Key())
  }

  /** `[e.value for e in Environment]`. */
  function EnvironmentKeys(): (r: seq<string>)
    ensures r == ["surface", "airburst", "underwater", "space", "underground"]
  {
    seq(|AllEnvironments|, i requires 0 <= i < |AllEnvironments| => AllEnvironments[i].Key())
  }

  /** `[e.value for e in Era]`. */
  function EraKeys(): (r: seq<string>)
    ensures r == ["trinity", "pacific", "nevada", "modern"]
  {
    seq(|AllEras|, i requires 0 <= i < |AllEras| => AllEras[i].Key())
  }

  /** `[a.value for a in Affect]`. */
  function AffectKeys(): (r: seq<string>)
    ensures r == ["sublime", "terrible", "clinical", "melancholic", "anxious", "sacred_profane"]
  {
    seq(|AllAffects|, i requires 0 <= i < |AllAffects| => AllAffects[i].Key())
  }

  /**
   * `get_phase_form_details`: the form's key, its record (the lookup by key
   * always succeeds), and every modifier value in declaration order.
   */
  function GetPhaseFormDetails(p: PhaseForm): (d: PhaseFormDetails)
    ensures d.phaseForm == p.Key()
    ensures d.intrinsicProperties == Some(PhaseIntrinsics(p))
    ensures d.scales == ["tactical", "strategic", "thermonuclear"]
    ensures d.environments == ["surface", "airburst", "underwater", "space", "underground"]
    ensures d.eras == ["trinity", "pacific", "nevada", "modern"]
    ensures d.affects == ["sublime", "terrible", "clinical", "melancholic", "anxious", "sacred_profane"]
  {
    PhaseKeyRoundTrip(p);
    PhaseFormDetails(p.Key(), PhaseIntrinsicsByKey(p.Key()), ScaleKeys(), EnvironmentKeys(), EraKeys(), AffectKeys())
  }

  // ---------------------------------------------------------------------------
  // list_modifiers
  // ---------------------------------------------------------------------------

  /** One modifier category: a description and its options, keyed by value, in table order. */
  datatype ModifierCategory<R> = ModifierCategory(description: string, options: seq<(string, R)>)

  datatype ModifierCatalogue = ModifierCatalogue(
    scale: ModifierCategory<ScaleRecord>,
    environment: ModifierCategory<EnvironmentRecord>,
    era: ModifierCategory<EraRecord>,
    affect: ModifierCategory<AffectRecord>)

  /** The scale table as `(value, record)` pairs in declaration order. */
  function ScaleOptions(): seq<(string, ScaleRecord)> {
    seq(|AllScales|, i requires 0 <= i < |AllScales| => (AllScales[i].Key(), ScaleModifiers(AllScales[i])))
  }

  /** The environment table as `(value, record)` pairs in declaration order. */
  function EnvironmentOptions(): seq<(string, EnvironmentRecord)> {
    seq(|AllEnvironments|, i requires 0 <= i < |AllEnvironments| =>
      (AllEnvironments[i].Key(), EnvironmentModifiers(AllEnvironments[i])))
  }

  /** The era table as `(value, record)` pairs in declaration order. */
  function EraOptions(): seq<(string, EraRecord)> {
    seq(|AllEras|, i requires 0 <= i < |AllEras| => (AllEras[i].Key(), EraModifiers(AllEras[i])))
  }

  /** The affect table as `(value, record)` pairs in declaration order. */
  function AffectOptions(): seq<(string, AffectRecord)> {
    seq(|AllAffects|, i requires 0 <= i < |AllAffects| => (AllAffects[i].Key(), AffectModifiers(AllAffects[i])))
  }

  /**
   * `list_modifiers`: each modifier table copied whole under a fixed
   * description, so every value of each enum is listed with the record the
   * enhancement tool looks up for it, and nothing else is listed.
   */
  function ListModifiers(): (r: ModifierCatalogue)
    ensures forall s: Scale :: (s.Key(), ScaleModifiers(s)) in r.scale.options
    ensures forall o :: o in r.scale.options ==> ScaleModifiersByKey(o.0) == Some(o.1)
    ensures forall e: Environment :: (e.Key(), EnvironmentModifiers(e)) in r.environment.options
    ensures forall o :: o in r.environment.options ==> EnvironmentModifiersByKey(o.0) == Some(o.1)
    ensures forall e: Era :: (e.Key(), EraModifiers(e)) in r.era.options
    ensures forall o :: o in r.era.options ==> EraModifiersByKey(o.0) == Some(o.1)
    ensures forall a: Affect :: (a.Key(), AffectModifiers(a)) in r.affect.options
    ensures forall o :: o in r.affect.options ==> AffectModifiersByKey(o.0) == Some(o.1)
  {
    ScaleOptionsResolve();
    EnvironmentOptionsResolve();
    EraOptionsResolve();
    AffectOptionsResolve();
    ModifierCatalogue(
      ModifierCategory("Yield scale affecting evolution rate and proportions", ScaleOptions()),
      ModifierCategory("Detonation environment affecting medium interaction", EnvironmentOptions()),
      ModifierCategory("Historical era affecting capture aesthetics", EraOptions()),
      ModifierCategory("Affective intent affecting framing and emotional register", AffectOptions()))
  }

  /**
   * The scale options are the scale table: every listed option is what the
   * enhancement tool looks up for its value, and every scale is listed.
   */
  lemma ScaleOptionsResolve()
    ensures |ScaleOptions()| == |AllScales|
    ensures forall o :: o in ScaleOptions() ==> ScaleModifiersByKey(o.0) == Some(o.1)
    ensures forall s: Scale :: (s.Key(), ScaleModifiers(s)) in ScaleOptions()
  {
    forall s: Scale ensures (s.Key(), ScaleModifiers(s)) in ScaleOptions() {
      var i := if s == Tactical then 0 else if s == Strategic then 1 else 2;
      assert AllScales[i] == s;
      assert ScaleOptions()[i] == (s.Key(), ScaleModifiers(s));
    }
    forall o | o in ScaleOptions() ensures ScaleModifiersByKey(o.0) == Some(o.1) {
      var i :| 0 <= i < |ScaleOptions()| && ScaleOptions()[i] == o;
      ScaleKeyRoundTrip(AllScales[i]);
    }
  }

  /**
   * The environment options are the environment table: every listed option is what the
   * enhancement tool looks up for its value, and every environment is listed.
   */
  lemma EnvironmentOptionsResolve()
    ensures |EnvironmentOptions()| == |AllEnvironments|
    ensures forall o :: o in EnvironmentOptions() ==> EnvironmentModifiersByKey(o.0) == Some(o.1)
    ensures forall e: Environment :: (e.Key(), EnvironmentModifiers(e)) in EnvironmentOptions()
  {
    forall e: Environment ensures (e.Key(), EnvironmentModifiers(e)) in EnvironmentOptions() {
      var i := if e == Surface then 0 else if e == Airburst then 1 else if e == Underwater then 2 else if e == Space then 3 else 4;
      assert AllEnvironments[i] == e;
      assert EnvironmentOptions()[i] == (e.Key(), EnvironmentModifiers(e));
    }
    forall o | o in EnvironmentOptions() ensures EnvironmentModifiersByKey(o.0) == Some(o.1) {
      var i :| 0 <= i < |EnvironmentOptions()| && EnvironmentOptions()[i] == o;
      EnvironmentKeyRoundTrip(AllEnvironments[i]);
    }
  }

  /**
   * The era options are the era table: every listed option is what the
   * enhancement tool looks up for its value, and every era is listed.
   */
  lemma EraOptionsResolve()
    ensures |EraOptions()| == |AllEras|
    ensures forall o :: o in EraOptions() ==> EraModifiersByKey(o.0) == Some(o.1)
    ensures forall e: Era :: (e.Key(), EraModifiers(e)) in EraOptions()
  {
    forall e: Era ensures (e.Key(), EraModifiers(e)) in EraOptions() {
      var i := if e == Trinity then 0 else if e == Pacific then 1 else if e == Nevada then 2 else 3;
      assert AllEras[i] == e;
      assert EraOptions()[i] == (e.Key(), EraModifiers(e));
    }
    forall o | o in EraOptions() ensures EraModifiersByKey(o.0) == Some(o.1) {
      var i :| 0 <= i < |EraOptions()| && EraOptions()[i] == o;
      EraKeyRoundTrip(AllEras[i]);
    }
  }

  /**
   * The affect options are the affect table: every listed option is what the
   * enhancement tool looks up for its value, and every affect is listed.
   */
  lemma AffectOptionsResolve()
    ensures |AffectOptions()| == |AllAffects|
    ensures forall o :: o in AffectOptions() ==> AffectModifiersByKey(o.0) == Some(o.1)
    ensures forall a: Affect :: (a.Key(), AffectModifiers(a)) in AffectOptions()
  {
    forall a: Affect ensures (a.Key(), AffectModifiers(a)) in AffectOptions() {
      var i := if a == Sublime then 0 else if a == Terrible then 1 else if a == Clinical then 2 else if a == Melancholic then 3 else if a == Anxious then 4 else 5;
      assert AllAffects[i] == a;
      assert AffectOptions()[i] == (a.Key(), AffectModifiers(a));
    }
    forall o | o in AffectOptions() ensures AffectModifiersByKey(o.0) == Some(o.1) {
      var i :| 0 <= i < |AffectOptions()| && AffectOptions()[i] == o;
      AffectKeyRoundTrip(AllAffects[i]);
    }
  }
}
