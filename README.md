# Nuclear aesthetic taxonomy: a verified model

The nuclear aesthetic server turns a short image prompt into a structured
description of a nuclear-explosion image. The description rests on a fixed
taxonomy:

- fourteen *phase forms*, moments of the explosion from the first radiant
  point to the fallout plume, each bundling a record of intrinsic visual
  properties;
- four modifier axes (yield scale, detonation environment, historical era of
  capture, affective intent), each value keyed to a record of adjustments.

This project models the deterministic core of that server in Dafny:

- **Taxonomy** (`taxonomy.dfy`): the five string enums with their values, in
  declaration order, and the five constant tables as total functions from
  enum values to records. Lookup by string value (`dict.get`) returns an
  `Option`. Round-trip lemmas show that every enum value finds its own
  record, so the empty-record fallbacks are never taken.
- **Composer** (`composer.dfy`): `build_enhancement_output`, an imperative
  method that fills the output structure, adds the era and affect facets
  only when those records are given, and appends the prompt phrases group by
  group. It also covers the default and lookup logic of
  `enhance_nuclear_aesthetic`: scale defaults to strategic, environment to
  airburst, era and affect to absent. Both methods are specified by the
  predicate `Built`. Lemmas give the number of phrases, when the debris
  phrase appears, and the synthesized prompt, which uses at most six phrases
  and never the era's or the affect's.
- **Matcher** (`matcher.dfy`): `match_description_to_phaseform`, as nested
  loops that score each phase form. One point is given per keyword and three
  per phrase contained in the lower-cased description. A stable sort by
  score, highest first, follows, and at most five entries are kept. The
  loops are proved against specification functions (`Hits`, `Score`,
  `Candidates`, `SortByScore`, `Suggestions`). Lemmas state the properties:
  - only scoring forms appear;
  - scores do not increase along the result;
  - ties keep declaration order;
  - the result is the top five;
  - with fewer than five results nothing that scores is missing;
  - there is no result exactly when no form scores.
- **Listing** (`listing.dfy`): the filter loop of `list_phase_forms` (a
  prefix test on the whole key, against the lower-cased filter), plus
  `get_phase_form_details` and `list_modifiers` as lookups over the tables.
- `textops.dfy` holds ASCII lower-casing, substring containment, `join` and
  slicing. `wrappers.dfy` holds the `Option` type.

An absent or empty dictionary is `None` throughout. Python treats both as
false, and the builder tests its record arguments only for truthiness. A
looked-up field rendered inside an f-string when the record is missing
prints as `None` (`Render`).

## Model

| member | source | states |
|---|---|---|
| Taxonomy.PhaseIntrinsics | nuclear_aesthetic_mcp.py:112-262 | the phase-form intrinsics table: one record per form, with the values the server stores |
| Taxonomy.ScaleModifiers | nuclear_aesthetic_mcp.py:269-291 | the scale modifiers table; only the thermonuclear scale has a colour shift |
| Taxonomy.EnvironmentModifiers | nuclear_aesthetic_mcp.py:293-329 | the environment modifiers table: one record per environment |
| Taxonomy.EraModifiers | nuclear_aesthetic_mcp.py:331-360 | the era modifiers table: one record per era |
| Taxonomy.AffectModifiers | nuclear_aesthetic_mcp.py:362-405 | the affect modifiers table: one record per affect |
| Taxonomy.PhaseFormByKey | nuclear_aesthetic_mcp.py:44-71 | decoding a string value: a decoded phase form has `key` as its `Key()` |
| Taxonomy.ScaleByKey | nuclear_aesthetic_mcp.py:74-78 | a decoded scale has `key` as its `Key()` |
| Taxonomy.EnvironmentByKey | nuclear_aesthetic_mcp.py:81-87 | a decoded environment has `key` as its `Key()` |
| Taxonomy.EraByKey | nuclear_aesthetic_mcp.py:90-95 | a decoded era has `key` as its `Key()` |
| Taxonomy.AffectByKey | nuclear_aesthetic_mcp.py:98-105 | a decoded affect has `key` as its `Key()` |
| Taxonomy.PhaseIntrinsicsByKey | nuclear_aesthetic_mcp.py:112-262 | the phase table's `.get(key)` finds a record only for a key that decodes to a phase form, which then has `key` as its `Key()`, and the record is that form's |
| Taxonomy.ScaleModifiersByKey | nuclear_aesthetic_mcp.py:269-291 | the scale table's `.get(key)` finds a record only for a key that decodes to a scale whose `Key()` is `key`, and the record is that scale's |
| Taxonomy.EnvironmentModifiersByKey | nuclear_aesthetic_mcp.py:293-329 | the environment table's `.get(key)` finds a record only for a key that decodes to an environment whose `Key()` is `key`, and the record is that environment's |
| Taxonomy.EraModifiersByKey | nuclear_aesthetic_mcp.py:331-360 | the era table's `.get(key)` finds a record only for a key that decodes to an era whose `Key()` is `key`, and the record is that era's |
| Taxonomy.AffectModifiersByKey | nuclear_aesthetic_mcp.py:362-405 | the affect table's `.get(key)` finds a record only for a key that decodes to an affect whose `Key()` is `key`, and the record is that affect's |
| Taxonomy.PhaseKeyRoundTrip | nuclear_aesthetic_mcp.py:44-71 | every phase form's string value looks up that same form, and its record, in the phase table |
| Taxonomy.EarlyPhaseKeys | nuclear_aesthetic_mcp.py:50-56 | the initiation and fireball values look up their own forms |
| Taxonomy.MiddlePhaseKeys | nuclear_aesthetic_mcp.py:59-66 | the shock and rise values look up their own forms |
| Taxonomy.LatePhaseKeys | nuclear_aesthetic_mcp.py:69-71 | the dispersal values look up their own forms |
| Taxonomy.ScaleKeyRoundTrip | nuclear_aesthetic_mcp.py:74-78 | every scale value looks up that scale and its record in the scale table |
| Taxonomy.EnvironmentKeyRoundTrip | nuclear_aesthetic_mcp.py:81-87 | every environment value looks up that environment and its record |
| Taxonomy.EraKeyRoundTrip | nuclear_aesthetic_mcp.py:90-95 | every era value looks up that era and its record |
| Taxonomy.AffectKeyRoundTrip | nuclear_aesthetic_mcp.py:98-105 | every affect value looks up that affect and its record |
| Taxonomy.PhaseKeysDistinct | nuclear_aesthetic_mcp.py:44-71 | two phase forms with the same string value are the same form: no member is an alias |
| Taxonomy.AllPhaseFormsEnumerates | nuclear_aesthetic_mcp.py:44-71 | iterating the enum yields fourteen forms, the i-th having ordinal i, and every form occurs at its ordinal |
| Taxonomy.PhaseLookupExact | nuclear_aesthetic_mcp.py:112-262 | the phase table finds a record for `key` exactly when some phase form has `key` as its `Key()` |
| Taxonomy.ScaleLookupExact | nuclear_aesthetic_mcp.py:269-291 | the scale table finds a record for `key` exactly when some scale has `key` as its `Key()` |
| Taxonomy.EnvironmentLookupExact | nuclear_aesthetic_mcp.py:293-329 | the environment table finds a record for `key` exactly when some environment has `key` as its `Key()` |
| Taxonomy.EraLookupExact | nuclear_aesthetic_mcp.py:331-360 | the era table finds a record for `key` exactly when some era has `key` as its `Key()` |
| Taxonomy.AffectLookupExact | nuclear_aesthetic_mcp.py:362-405 | the affect table finds a record for `key` exactly when some affect has `key` as its `Key()` |
| Taxonomy.DebrisNoneOnlyInSpace | nuclear_aesthetic_mcp.py:293-329 | an environment's debris character is "none" exactly for space |
| TextOps.LowerChar | nuclear_aesthetic_mcp.py:588 | lower-casing one character: the result is never an ASCII capital, capitals move down by 32, anything else is unchanged |
| TextOps.Lower | nuclear_aesthetic_mcp.py:588 | `lower()` (ASCII) keeps the length and lower-cases each character in place |
| TextOps.LowerIdempotent | nuclear_aesthetic_mcp.py:773 | lower-casing twice is lower-casing once |
| TextOps.Contains | nuclear_aesthetic_mcp.py:656-661 | Python's `term in text`: the term occurs at some position of the text |
| TextOps.ContainsInsideWord | nuclear_aesthetic_mcp.py:656 | containment is by substring, so "ring" is found in "spring" |
| TextOps.Join | nuclear_aesthetic_mcp.py:580 | `sep.join(parts)`: the parts with the separator between consecutive ones |
| TextOps.Take | nuclear_aesthetic_mcp.py:580 | the slice `xs[:n]` is a prefix of `xs` of length `min(n, len(xs))` |
| Composer.Get | nuclear_aesthetic_mcp.py:507-523 | `intrinsics.get(name)` yields a value exactly when the record is present, and then it is the named field of that record (luminous regime, luminosity, form, duration reference, atmospheric state, key visual or contrast) |
| Composer.ColorTemperature | nuclear_aesthetic_mcp.py:499 | the record's colour temperature range, or (5500, 6500) when there is no record |
| Composer.Render | nuclear_aesthetic_mcp.py:550-575 | how an f-string renders a looked-up value: the string itself, or `None` when it is missing |
| Composer.ElementCount | nuclear_aesthetic_mcp.py:549-577 | the phrase list has 3 phrases, plus 2 with a scale, plus 2 or 1 with an environment (2 exactly when its debris character is not "none"), plus 3 with an era and 2 with an affect |
| Composer.ElementCountForEnvironment | nuclear_aesthetic_mcp.py:549-577 | with a scale record and a table environment the list has 7 phrases (6 in space), plus 3 with an era and 2 with an affect |
| Composer.DebrisPhraseIff | nuclear_aesthetic_mcp.py:561-564 | the debris phrase is among the environment's phrases exactly when the debris character is not "none" |
| Composer.FirstSixIgnoreEraAndAffect | nuclear_aesthetic_mcp.py:549-580 | with scale and environment records there are at least six phrases before the era's, and the first six phrases are the phase, scale and environment phrases |
| Composer.SynthesizedPromptShape | nuclear_aesthetic_mcp.py:580 | the synthesized prompt starts with the prompt and ", ", then joins all phrases when there are at most six and the first six otherwise |
| Composer.SynthesisIgnoresEraAndAffect | nuclear_aesthetic_mcp.py:549-580 | whatever era and affect are given, the synthesized prompt is fixed by the phase, scale and environment records, and the phrase list is those phrases followed by the era's and the affect's |
| Composer.BuildEnhancementOutput | nuclear_aesthetic_mcp.py:487-582 | the prompt and key copied; the four mandatory facets read from the phase record; scale and environment recorded as given; the era key and capture facet present exactly when an era record is given, with its fields; the affect key and composition facet likewise; phrases in the fixed order; prompt synthesized from at most six phrases |
| Composer.BuildPromptElements | nuclear_aesthetic_mcp.py:548-577 | appending group by group yields phase, scale, environment, era and affect phrases in that order, each group only when its record is given |
| Composer.ResolveIntrinsics | nuclear_aesthetic_mcp.py:718-719 | looking the phase form up by its value always finds its record; the empty fallback is never used |
| Composer.ResolveScale | nuclear_aesthetic_mcp.py:722 | the given scale's record, or the strategic record when none is given |
| Composer.ResolveEnvironment | nuclear_aesthetic_mcp.py:723 | the given environment's record, or the airburst record when none is given |
| Composer.ResolveEra | nuclear_aesthetic_mcp.py:724 | an era record exactly when an era is given, and then that era's record |
| Composer.ResolveAffect | nuclear_aesthetic_mcp.py:725 | an affect record exactly when an affect is given, and then that affect's record |
| Composer.EnhanceNuclearAesthetic | nuclear_aesthetic_mcp.py:717-736 | the built output for the phase form's own record, the given scale or strategic, the given environment or airburst, and the era and affect records only when given |
| Matcher.Hits | nuclear_aesthetic_mcp.py:655-663 | the terms found are at most as many as the terms tested |
| Matcher.HitsMembership | nuclear_aesthetic_mcp.py:655-663 | a term is recorded as matched exactly when it is one of the terms and the text contains it |
| Matcher.ScoredTerms | nuclear_aesthetic_mcp.py:651-671 | a form scores above zero exactly when some term matched; the score lies between the number of matched terms and three times it; the matched terms are the form's keywords and phrases that the text contains |
| Matcher.Entries | nuclear_aesthetic_mcp.py:651 | one entry per phase form visited |
| Matcher.EntriesAt | nuclear_aesthetic_mcp.py:651-671 | the i-th entry is the scoring of the i-th form |
| Matcher.EntriesExtend | nuclear_aesthetic_mcp.py:651-671 | visiting one more form appends its entry |
| Matcher.PositiveSnoc | nuclear_aesthetic_mcp.py:665-671 | one more entry is appended to the matches exactly when it scores above zero |
| Matcher.PositiveMembership | nuclear_aesthetic_mcp.py:665-671 | the matches are exactly the entries that score above zero |
| Matcher.PositiveInOrder | nuclear_aesthetic_mcp.py:665-671 | keeping only scoring entries preserves declaration order |
| Matcher.CandidatesMembership | nuclear_aesthetic_mcp.py:651-671 | an entry is a match exactly when its form is one of those scored, it is that form's scoring, and the score is above zero |
| Matcher.CandidatesInDeclarationOrder | nuclear_aesthetic_mcp.py:592-671 | the matches appear in the declaration order of the keyword table before sorting |
| Matcher.Insert | nuclear_aesthetic_mcp.py:674 | one insertion step of the sort adds exactly one entry |
| Matcher.SortByScore | nuclear_aesthetic_mcp.py:674 | the sort keeps the number of entries |
| Matcher.InsertPermutation | nuclear_aesthetic_mcp.py:674 | an insertion step adds its entry and loses none |
| Matcher.SortPermutation | nuclear_aesthetic_mcp.py:674 | sorting is a permutation of the matches |
| Matcher.InsertionPoint | nuclear_aesthetic_mcp.py:674 | an entry is inserted after every entry that scores more and before one that scores no more |
| Matcher.KeywordMappings | nuclear_aesthetic_mcp.py:592-649 | the keyword table: every phase form has at least one keyword and at least one phrase that vote for it |
| Matcher.InsertAt | nuclear_aesthetic_mcp.py:674 | insertion keeps the entries before the insertion point and shifts the rest by one place |
| Matcher.InsertNonIncreasing | nuclear_aesthetic_mcp.py:674 | inserting into a list ordered by score, highest first, keeps it ordered |
| Matcher.SortNonIncreasing | nuclear_aesthetic_mcp.py:674 | after sorting, scores never increase along the list |
| Matcher.InsertTies | nuclear_aesthetic_mcp.py:674 | inserting an entry declared before all others places it before the entries with its own score |
| Matcher.SortTies | nuclear_aesthetic_mcp.py:674 | the sort is stable: entries with equal scores stay in declaration order |
| Matcher.SuggestionsAreCandidates | nuclear_aesthetic_mcp.py:665-676 | every returned entry is its own form's scoring against the lower-cased description, with a score above zero |
| Matcher.SuggestionsOrdered | nuclear_aesthetic_mcp.py:674-676 | at most five entries, each scoring above zero, scores non-increasing, and equal scores in declaration order |
| Matcher.SuggestionsAreTopFive | nuclear_aesthetic_mcp.py:674-676 | a form that outscores any returned entry is itself returned: no form is cut for a lower-scoring one |
| Matcher.SuggestionsKeepEarlierTies | nuclear_aesthetic_mcp.py:674-676 | ties at the cut go to the earlier form: a form that scores as much as a returned entry and is declared before it is itself returned |
| Matcher.SortedTieOrder | nuclear_aesthetic_mcp.py:674 | in the sorted candidates, of two tied entries the one whose form is declared earlier comes first |
| Matcher.SuggestionsComplete | nuclear_aesthetic_mcp.py:665-676 | with fewer than five entries returned, every form that scores is among them |
| Matcher.NoSuggestionsIff | nuclear_aesthetic_mcp.py:665-676 | no entries are returned exactly when no form scores |
| Matcher.ScoreTerms | nuclear_aesthetic_mcp.py:655-663 | one inner loop earns its weight for every term the text contains and records those terms in test order |
| Matcher.ScoreMapping | nuclear_aesthetic_mcp.py:652-663 | the score is one per contained keyword plus three per contained phrase; the matched terms are the keyword hits followed by the phrase hits |
| Matcher.ScoreForm | nuclear_aesthetic_mcp.py:651-671 | the entry for a form: its score, matched terms and the key visual from the phase table |
| Matcher.CollectCandidates | nuclear_aesthetic_mcp.py:651-671 | the outer loop collects exactly the scoring entries, in the order visited |
| Matcher.MatchDescriptionToPhaseForm | nuclear_aesthetic_mcp.py:585-676 | the top five scoring entries for the lower-cased description: scores above zero, non-increasing, ties in declaration order |
| Listing.Listings | nuclear_aesthetic_mcp.py:775-781 | one listing entry per selected form |
| Listing.ListingsAt | nuclear_aesthetic_mcp.py:775-781 | the i-th entry carries the i-th selected form's key, key visual, duration reference and luminous regime |
| Listing.ListingsSnoc | nuclear_aesthetic_mcp.py:777-782 | listing one more form appends its entry |
| Listing.ListingInjective | nuclear_aesthetic_mcp.py:777-782 | two forms with the same listing entry are the same form |
| Listing.ListedOnlyFromForms | nuclear_aesthetic_mcp.py:768-782 | a form is listed only if it was selected |
| Listing.FormsAreListed | nuclear_aesthetic_mcp.py:768-782 | every selected form is listed |
| Listing.ListingsMembership | nuclear_aesthetic_mcp.py:768-782 | a form's entry is listed exactly when the form was selected |
| Listing.ListingsOnly | nuclear_aesthetic_mcp.py:768-782 | every listed entry belongs to a selected form |
| Listing.PassesFilter | nuclear_aesthetic_mcp.py:772-773 | the filter test: no filter or an empty one passes every form, otherwise the form's key must start with the lower-cased filter |
| Listing.FilteredMembership | nuclear_aesthetic_mcp.py:771-774 | a form is selected exactly when it is one of the forms visited and passes the filter |
| Listing.SelectedPrecedeLast | nuclear_aesthetic_mcp.py:768-774 | the forms selected from the earlier ones are declared before the last one |
| Listing.FilteredInOrder | nuclear_aesthetic_mcp.py:768-774 | selection preserves declaration order |
| Listing.FilteredExtend | nuclear_aesthetic_mcp.py:768-774 | visiting one more form selects it exactly when it passes |
| Listing.FilteredAppend | nuclear_aesthetic_mcp.py:768-774 | selecting from two runs of forms selects from each in turn |
| Listing.FilteredAllPass | nuclear_aesthetic_mcp.py:772 | when every form passes, all are selected |
| Listing.FilteredNonePass | nuclear_aesthetic_mcp.py:772-774 | when no form passes, none is selected |
| Listing.ListedIff | nuclear_aesthetic_mcp.py:766-782 | a form is listed exactly when there is no filter, the filter is empty, or its whole key starts with the lower-cased filter; nothing else is listed |
| Listing.ListedInOrder | nuclear_aesthetic_mcp.py:768-782 | the listing is in declaration order; with no filter or an empty one it holds all fourteen forms |
| Listing.FilterIgnoresCase | nuclear_aesthetic_mcp.py:773 | a filter and its lower-case form select the same forms |
| Listing.UpperCaseFilterExample | nuclear_aesthetic_mcp.py:773 | "FIREBALL" selects fireball.plasma_core |
| Listing.FilterOnWholeKey | nuclear_aesthetic_mcp.py:773 | "plasma_core" does not select fireball.plasma_core: the prefix is taken over the whole key |
| Listing.ListingEntry | nuclear_aesthetic_mcp.py:776-781 | the entry looked up by key carries the form's own key visual, duration reference and luminous regime |
| Listing.ListForms | nuclear_aesthetic_mcp.py:766-782 | the loop lists exactly the forms that pass, in the order visited |
| Listing.ListPhaseForms | nuclear_aesthetic_mcp.py:766-784 | `list_phase_forms` returns the listing of the forms that pass, in declaration order |
| Listing.GetPhaseFormDetails | nuclear_aesthetic_mcp.py:812-824 | the form's key, its own record, and every scale, environment, era and affect value in declaration order |
| Listing.ScaleKeys | nuclear_aesthetic_mcp.py:820 | the scale values in declaration order: tactical, strategic, thermonuclear |
| Listing.EnvironmentKeys | nuclear_aesthetic_mcp.py:821 | the environment values in declaration order: surface, airburst, underwater, space, underground |
| Listing.EraKeys | nuclear_aesthetic_mcp.py:822 | the era values in declaration order: trinity, pacific, nevada, modern |
| Listing.AffectKeys | nuclear_aesthetic_mcp.py:823 | the affect values in declaration order: sublime, terrible, clinical, melancholic, anxious, sacred_profane |
| Listing.ListModifiers | nuclear_aesthetic_mcp.py:881-911 | `list_modifiers` lists every scale, environment, era and affect with its record, and every listed option is the record the enhancement tool looks up for its value |
| Listing.ScaleOptionsResolve | nuclear_aesthetic_mcp.py:893-896 | the scale options have one entry per scale; each listed option is the record the enhancement looks up for its value, and every scale is listed with its record |
| Listing.EnvironmentOptionsResolve | nuclear_aesthetic_mcp.py:897-900 | one entry per environment; each option is the record looked up for its value, and every environment is listed with its record |
| Listing.EraOptionsResolve | nuclear_aesthetic_mcp.py:901-904 | one entry per era; each option is the record looked up for its value, and every era is listed with its record |
| Listing.AffectOptionsResolve | nuclear_aesthetic_mcp.py:905-908 | one entry per affect; each option is the record looked up for its value, and every affect is listed with its record |

## Left out

- Server construction, cloud-mode detection, environment variables and tool registration (nuclear_aesthetic_mcp.py:13-37 and the `@mcp.tool` decorators): transport plumbing without logic.
- The `async` tool wrappers and `json.dumps`: each tool is modelled by the value it serialises. A `TemperatureRange` stands for the `{"min", "max"}` dictionary.
- Input validation by the pydantic models (nuclear_aesthetic_mcp.py:412-480): whitespace stripping, length bounds, rejecting extra fields. Enum coercion is captured by typing the arguments with the enum datatypes. The model defaults for scale and environment (lines 431 and 435) coincide with the fallbacks at lines 722-723, which are modelled.
- `suggest_phase_form` (nuclear_aesthetic_mcp.py:839-868) only wraps the matcher's result with a message. Its empty case is described by `Matcher.NoSuggestionsIff`.
- `str.lower()` is modelled as ASCII lower-casing. Unicode case mapping is not modelled.
- `list.sort` (Timsort) is modelled by a stable insertion sort with the same result. The model states the result, not the algorithm.
- Dictionaries are records. A phase, scale or environment dictionary is either a whole table record or absent (`None`). A partially filled dictionary, with some `.get` keys missing, is not modelled, since the tables never build one.
- The matcher reads the key visual with strict indexing (`PHASEFORM_INTRINSICS[phase_form]["key_visual"]`, line 670), which could raise `KeyError`. Every keyword-table key is a phase value with a record (`Taxonomy.PhaseKeyRoundTrip`), so the model reads the record directly.
- `list_modifiers` returns each table as a dictionary. The model lists `(value, record)` pairs in table order, which is the dictionary's iteration order.
- The documentation describes the filter of `list_phase_forms` as choosing a phase group such as "fireball". The code tests `startswith` on the whole key against the lower-cased filter, so a filter like "fire" or "fireball.plasma" also selects. The model follows the code (`Listing.FilterOnWholeKey`).
