/**
 * The matcher `match_description_to_phaseform`: every phase form is scored
 * against a lower-cased description (one point per keyword it contains, three
 * per phrase), forms that score nothing are dropped, the rest are stably
 * sorted by score, highest first, and at most five are returned.
 */
module Matcher {
  import opened Taxonomy
  import opened TextOps

  // ---------------------------------------------------------------------------
  // The keyword table
  // ---------------------------------------------------------------------------

  /** The terms that vote for one phase form: keywords, and phrases that weigh more. */
  datatype KeywordMapping = KeywordMapping(keywords: seq<string>, phrases: seq<string>)

  /**
   * `keyword_mappings`. Its keys are the phase-form values in declaration
   * order, so iterating the dictionary is iterating `AllPhaseForms`. Every
   * form has at least one keyword and one phrase.
   */
  function KeywordMappings(p: PhaseForm): (r: KeywordMapping)
    ensures |r.keywords| > 0 && |r.phrases| > 0
  {
    match p
    case InitiationRadiantPoint => KeywordMapping(
      ["point", "first light", "initial", "origin", "birth", "beginning"],
      ["moment of detonation", "first instant", "point source"])
    case InitiationThermalBloom => KeywordMapping(
      ["white", "bloom", "overexposed", "blind", "flash", "brilliant"],
      ["everything goes white", "pure light", "thermal flash", "blinding"])
    case FireballPlasmaCore => KeywordMapping(
      ["plasma", "core", "sphere", "orange", "hot", "glowing"],
      ["ball of fire", "plasma sphere", "incandescent"])
    case FireballSurfaceInstability => KeywordMapping(
      ["mottled", "surface", "texture", "rope", "instability", "perturbation"],
      ["rope tricks", "surface detail", "mottling"])
    case FireballExpansionFront => KeywordMapping(
      ["expanding", "growing", "cooling", "edge", "front"],
      ["shock separating", "expansion", "cooling edges"])
    case ShockCompressionDisc => KeywordMapping(
      ["ring", "disc", "compression", "wave", "shockwave"],
      ["compression wave", "visible ring", "shock ring"])
    case ShockMachStem => KeywordMapping(
      ["ground", "dust", "debris", "stem", "skirt", "dirt"],
      ["dust skirt", "ground interaction", "debris curtain", "mach stem"])
    case ShockWilsonCloud => KeywordMapping(
      ["cloud", "vapor", "condensation", "wilson", "dome", "eerie"],
      ["wilson cloud", "vapor ring", "condensation", "eerie ring"])
    case RiseVortexStem => KeywordMapping(
      ["stem", "column", "rising", "vortex", "pillar"],
      ["rising column", "stem forming", "vortex stem"])
    case RiseToroidalRoll => KeywordMapping(
      ["toroid", "roll", "mushroom", "cap", "rolling"],
      ["mushroom forming", "rolling edges", "toroidal"])
    case RiseCauliflowerCap => KeywordMapping(
      ["cauliflower", "baroque", "fractal", "turbulent", "complex", "iconic"],
      ["mushroom cloud", "iconic shape", "fractal edges", "baroque complexity"])
    case DispersalColumnCollapse => KeywordMapping(
      ["collapse", "falling", "settling", "decay"],
      ["column collapse", "falling back", "losing coherence"])
    case DispersalAnvilSpread => KeywordMapping(
      ["anvil", "spread", "horizontal", "stratosphere"],
      ["spreading out", "anvil cloud", "horizontal spread"])
    case DispersalFalloutPlume => KeywordMapping(
      ["fallout", "drift", "smear", "aftermath", "contamination", "ominous"],
      ["drifting", "fallout", "aftermath", "entropic"])  }

  /** A contained keyword is worth one point. */
  const KeywordWeight: nat := 1

  /** A contained phrase is worth three points. */
  const PhraseWeight: nat := 3

  // ---------------------------------------------------------------------------
  // Scoring one phase form
  // ---------------------------------------------------------------------------

  /** The terms of `terms` that occur in `text`, in the order they are tested. */
  function Hits(text: string, terms: seq<string>): (r: seq<string>)
    ensures |r| <= |terms|
    decreases |terms|
  {
    if terms == [] then []
    else
      var last := terms[|terms| - 1];
      Hits(text, terms[..|terms| - 1]) + (if Contains(text, last) then [last] else [])
  }

  /** A term is a hit exactly when it is one of the terms and occurs in the text. */
  lemma {:induction false} HitsMembership(text: string, terms: seq<string>, t: string)
    ensures t in Hits(text, terms) <==> t in terms && Contains(text, t)
    decreases |terms|
  {
    if terms != [] {
      var init := terms[..|terms| - 1];
      HitsMembership(text, init, t);
      assert terms == init + [terms[|terms| - 1]];
    }
  }

  /** One point per contained keyword and three per contained phrase. */
  function Score(text: string, mapping: KeywordMapping): nat {
    KeywordWeight * |Hits(text, mapping.keywords)| + PhraseWeight * |Hits(text, mapping.phrases)|
  }

  /** One entry of the result: the form, its score, the terms that hit and its key visual. */
  datatype Match = Match(
    phaseForm: PhaseForm,
    confidenceScore: nat,
    matchedTerms: seq<string>,
    keyVisual: string)

  /** The entry the matcher builds for `p` against the lower-cased text. */
  function Scored(text: string, p: PhaseForm): Match {
    var mapping := KeywordMappings(p);
    Match(p, Score(text, mapping), Hits(text, mapping.keywords) + Hits(text, mapping.phrases),
          PhaseIntrinsics(p).keyVisual)
  }

  /**
   * A form scores exactly when some term hits; the score lies between the
   * number of hits and three times that number, and the matched terms are the
   * keywords and phrases the text contains.
   */
  lemma ScoredTerms(text: string, p: PhaseForm)
    ensures Scored(text, p).confidenceScore > 0 <==> Scored(text, p).matchedTerms != []
    ensures |Scored(text, p).matchedTerms| <= Scored(text, p).confidenceScore <= 3 * |Scored(text, p).matchedTerms|
    ensures forall t :: t in Scored(text, p).matchedTerms <==>
              (t in KeywordMappings(p).keywords || t in KeywordMappings(p).phrases) && Contains(text, t)
  {
    var mapping := KeywordMappings(p);
    forall t ensures t in Scored(text, p).matchedTerms <==> (t in mapping.keywords || t in mapping.phrases) && Contains(text, t) {
      HitsMembership(text, mapping.keywords, t);
      HitsMembership(text, mapping.phrases, t);
    }
  }

  // ---------------------------------------------------------------------------
  // Collecting and ordering the candidates
  // ---------------------------------------------------------------------------

  /** The entry of every form of `forms`, in the order of `forms`. */
  function Entries(text: string, forms: seq<PhaseForm>): (r: seq<Match>)
    ensures |r| == |forms|
    decreases |forms|
  {
    if forms == [] then []
    else Entries(text, forms[..|forms| - 1]) + [Scored(text, forms[|forms| - 1])]
  }

  /** The `i`-th entry is the entry of the `i`-th form. */
  lemma {:induction false} EntriesAt(text: string, forms: seq<PhaseForm>, i: nat)
    requires i < |forms|
    ensures Entries(text, forms)[i] == Scored(text, forms[i])
    decreases |forms|
  {
    if i < |forms| - 1 {
      EntriesAt(text, forms[..|forms| - 1], i);
    }
  }

  /** Scoring one more form appends its entry. */
  lemma EntriesExtend(text: string, forms: seq<PhaseForm>, i: nat)
    requires i < |forms|
    ensures Entries(text, forms[..i + 1]) == Entries(text, forms[..i]) + [Scored(text, forms[i])]
  {
    assert forms[..i + 1][..i] == forms[..i];
  }

  /** The entries that score above zero, in their original order (the `if score > 0` of the loop). */
  function Positive(s: seq<Match>): seq<Match>
    decreases |s|
  {
    if s == [] then []
    else
      var last := s[|s| - 1];
      Positive(s[..|s| - 1]) + (if last.confidenceScore > 0 then [last] else [])
  }

  /** Filtering one more entry appends it exactly when it scores. */
  lemma PositiveSnoc(s: seq<Match>, x: Match)
    ensures Positive(s + [x]) == Positive(s) + (if x.confidenceScore > 0 then [x] else [])
  {
    assert (s + [x])[..|s|] == s;
  }

  /** The filter keeps exactly the entries that score. */
  lemma {:induction false} PositiveMembership(s: seq<Match>, m: Match)
    ensures m in Positive(s) <==> m in s && m.confidenceScore > 0
    decreases |s|
  {
    if s != [] {
      var init := s[..|s| - 1];
      PositiveMembership(init, m);
      assert s == init + [s[|s| - 1]];
    }
  }

  /** Entries appear in phase-form declaration order. */
  predicate InDeclarationOrder(s: seq<Match>) {
    forall i, j :: 0 <= i < j < |s| ==> s[i].phaseForm.Ordinal() < s[j].phaseForm.Ordinal()
  }

  /** The filter keeps the relative order of the entries it keeps. */
  lemma {:induction false} PositiveInOrder(s: seq<Match>)
    requires InDeclarationOrder(s)
    ensures InDeclarationOrder(Positive(s))
    decreases |s|
  {
    if s != [] {
      var init := s[..|s| - 1];
      var last := s[|s| - 1];
      PositiveInOrder(init);
      var before := Positive(init);
      forall k | 0 <= k < |before| ensures before[k].phaseForm.Ordinal() < last.phaseForm.Ordinal() {
        PositiveMembership(init, before[k]);
        var j :| 0 <= j < |init| && init[j] == before[k];
        assert s[j] == init[j];
      }
    }
  }

  /** The entries of the forms in `forms` that score above zero, in the order of `forms`. */
  function Candidates(text: string, forms: seq<PhaseForm>): seq<Match> {
    Positive(Entries(text, forms))
  }

  /** The candidates are exactly the scoring entries of the given forms. */
  lemma CandidatesMembership(text: string, forms: seq<PhaseForm>, m: Match)
    ensures m in Candidates(text, forms) <==>
              m.phaseForm in forms && m == Scored(text, m.phaseForm) && m.confidenceScore > 0
  {
    var entries := Entries(text, forms);
    PositiveMembership(entries, m);
    if m in entries {
      var i :| 0 <= i < |entries| && entries[i] == m;
      EntriesAt(text, forms, i);
    }
    if m.phaseForm in forms {
      var i :| 0 <= i < |forms| && forms[i] == m.phaseForm;
      EntriesAt(text, forms, i);
    }
  }

  /** Given forms in declaration order, the candidates are too. */
  lemma CandidatesInDeclarationOrder(text: string, forms: seq<PhaseForm>)
    requires forall i, j :: 0 <= i < j < |forms| ==> forms[i].Ordinal() < forms[j].Ordinal()
    ensures InDeclarationOrder(Candidates(text, forms))
  {
    var entries := Entries(text, forms);
    forall i | 0 <= i < |forms| ensures entries[i].phaseForm == forms[i] {
      EntriesAt(text, forms, i);
    }
    PositiveInOrder(entries);
  }

  /** Scores never increase along the sequence. */
  predicate NonIncreasing(s: seq<Match>) {
    forall i, j :: 0 <= i < j < |s| ==> s[i].confidenceScore >= s[j].confidenceScore
  }

  /** Entries with equal scores appear in phase-form declaration order. */
  predicate TiesInDeclarationOrder(s: seq<Match>) {
    forall i, j :: 0 <= i < j < |s| && s[i].confidenceScore == s[j].confidenceScore ==>
      s[i].phaseForm.Ordinal() < s[j].phaseForm.Ordinal()
  }

  /** Inserts `m` before the first entry that does not score more than it. */
  function Insert(m: Match, s: seq<Match>): (r: seq<Match>)
    ensures |r| == |s| + 1
  {
    if s == [] || s[0].confidenceScore <= m.confidenceScore then [m] + s
    else [s[0]] + Insert(m, s[1..])
  }

  /**
   * `list.sort(key=..., reverse=True)` on the scores: a stable sort, highest
   * score first, entries with equal scores kept in their original order.
   */
  function SortByScore(s: seq<Match>): (r: seq<Match>)
    ensures |r| == |s|
  {
    if s == [] then [] else Insert(s[0], SortByScore(s[1..]))
  }

  lemma {:induction false} InsertPermutation(m: Match, s: seq<Match>)
    ensures multiset(Insert(m, s)) == multiset{m} + multiset(s)
  {
    if s != [] && s[0].confidenceScore > m.confidenceScore {
      InsertPermutation(m, s[1..]);
      assert s == [s[0]] + s[1..];
    }
  }

  /** Sorting rearranges the entries and neither adds nor drops any. */
  lemma {:induction false} SortPermutation(s: seq<Match>)
    ensures multiset(SortByScore(s)) == multiset(s)
  {
    if s != [] {
      SortPermutation(s[1..]);
      InsertPermutation(s[0], SortByScore(s[1..]));
      assert s == [s[0]] + s[1..];
    }
  }

  /** Where `Insert` puts `m`: after every entry that scores more, before the rest. */
  function InsertionPoint(m: Match, s: seq<Match>): (k: nat)
    ensures k <= |s|
    ensures forall i :: 0 <= i < k ==> s[i].confidenceScore > m.confidenceScore
    ensures k < |s| ==> s[k].confidenceScore <= m.confidenceScore
  {
    if s == [] || s[0].confidenceScore <= m.confidenceScore then 0
    else 1 + InsertionPoint(m, s[1..])
  }

  /** `Insert` shifts the entries from the insertion point on by one place. */
  lemma {:induction false} InsertAt(m: Match, s: seq<Match>)
    ensures forall i :: 0 <= i < InsertionPoint(m, s) ==> Insert(m, s)[i] == s[i]
    ensures Insert(m, s)[InsertionPoint(m, s)] == m
    ensures forall i :: InsertionPoint(m, s) < i <= |s| ==> Insert(m, s)[i] == s[i - 1]
  {
    if s != [] && s[0].confidenceScore > m.confidenceScore {
      InsertAt(m, s[1..]);
    }
  }

  lemma InsertNonIncreasing(m: Match, s: seq<Match>)
    requires NonIncreasing(s)
    ensures NonIncreasing(Insert(m, s))
  {
    var k := InsertionPoint(m, s);
    var r := Insert(m, s);
    InsertAt(m, s);
    forall i, j | 0 <= i < j < |r| ensures r[i].confidenceScore >= r[j].confidenceScore {
      if j < k {
        assert r[i] == s[i] && r[j] == s[j];
      } else if i > k {
        assert r[i] == s[i - 1] && r[j] == s[j - 1];
      } else if i == k {
        assert r[j] == s[j - 1];
      } else if j == k {
        assert r[i] == s[i];
      } else {
        assert r[i] == s[i] && r[j] == s[j - 1];
      }
    }
  }

  /** Sorting leaves the scores non-increasing. */
  lemma {:induction false} SortNonIncreasing(s: seq<Match>)
    ensures NonIncreasing(SortByScore(s))
  {
    if s != [] {
      SortNonIncreasing(s[1..]);
      InsertNonIncreasing(s[0], SortByScore(s[1..]));
    }
  }

  /**
   * Inserting an entry declared before every entry of `s` keeps ties in
   * declaration order: it goes before the entries with its own score.
   */
  lemma InsertTies(m: Match, s: seq<Match>)
    requires TiesInDeclarationOrder(s)
    requires forall k :: 0 <= k < |s| ==> m.phaseForm.Ordinal() < s[k].phaseForm.Ordinal()
    ensures TiesInDeclarationOrder(Insert(m, s))
  {
    var k := InsertionPoint(m, s);
    var r := Insert(m, s);
    InsertAt(m, s);
    forall i, j | 0 <= i < j < |r| && r[i].confidenceScore == r[j].confidenceScore
      ensures r[i].phaseForm.Ordinal() < r[j].phaseForm.Ordinal()
    {
      if j < k {
        assert r[i] == s[i] && r[j] == s[j];
      } else if i > k {
        assert r[i] == s[i - 1] && r[j] == s[j - 1];
      } else if i == k {
        assert r[j] == s[j - 1];
      } else {
        assert r[i] == s[i];
        assert j > k ==> r[j] == s[j - 1];
      }
    }
  }

  /** Sorting entries that are in declaration order keeps ties in declaration order: it is stable. */
  lemma {:induction false} SortTies(s: seq<Match>)
    requires InDeclarationOrder(s)
    ensures TiesInDeclarationOrder(SortByScore(s))
  {
    if s != [] {
      var rest := SortByScore(s[1..]);
      SortTies(s[1..]);
      SortPermutation(s[1..]);
      forall k | 0 <= k < |rest| ensures s[0].phaseForm.Ordinal() < rest[k].phaseForm.Ordinal() {
        assert rest[k] in multiset(rest);
        var j :| 0 <= j < |s[1..]| && s[1..][j] == rest[k];
        assert s[j + 1] == rest[k];
      }
      InsertTies(s[0], rest);
    }
  }

  // ---------------------------------------------------------------------------
  // The result
  // ---------------------------------------------------------------------------

  /** The specification of the matcher: the top five of the sorted candidates. */
  function Suggestions(description: string): seq<Match> {
    Take(SortByScore(Candidates(Lower(description), AllPhaseForms)), 5)
  }

  /** Each suggestion is the scoring entry of its own phase form, and the candidates are ordered. */
  lemma SuggestionsAreCandidates(description: string)
    ensures InDeclarationOrder(Candidates(Lower(description), AllPhaseForms))
    ensures forall m :: m in Suggestions(description) ==>
              m == Scored(Lower(description), m.phaseForm) && m.confidenceScore > 0
  {
    var text := Lower(description);
    var candidates := Candidates(text, AllPhaseForms);
    AllPhaseFormsEnumerates();
    CandidatesInDeclarationOrder(text, AllPhaseForms);
    SortPermutation(candidates);
    forall m | m in Suggestions(description)
      ensures m == Scored(text, m.phaseForm) && m.confidenceScore > 0
    {
      assert m in SortByScore(candidates);
      assert m in multiset(SortByScore(candidates));
      CandidatesMembership(text, AllPhaseForms, m);
    }
  }

  /**
   * At most five entries, each scoring above zero, highest score first, and
   * equal scores in declaration order.
   */
  lemma SuggestionsOrdered(description: string)
    ensures |Suggestions(description)| <= 5
    ensures forall i :: 0 <= i < |Suggestions(description)| ==> Suggestions(description)[i].confidenceScore > 0
    ensures NonIncreasing(Suggestions(description))
    ensures TiesInDeclarationOrder(Suggestions(description))
  {
    var sorted := SortByScore(Candidates(Lower(description), AllPhaseForms));
    SuggestionsAreCandidates(description);
    SortNonIncreasing(Candidates(Lower(description), AllPhaseForms));
    SortTies(Candidates(Lower(description), AllPhaseForms));
    assert forall i :: 0 <= i < |Suggestions(description)| ==> Suggestions(description)[i] == sorted[i];
    assert forall i :: 0 <= i < |Suggestions(description)| ==> Suggestions(description)[i] in Suggestions(description);
  }

  /** A form that outscores some suggestion is itself a suggestion: none is left out for a worse one. */
  lemma SuggestionsAreTopFive(description: string, m: Match, p: PhaseForm)
    requires m in Suggestions(description)
    requires Scored(Lower(description), p).confidenceScore > m.confidenceScore
    ensures Scored(Lower(description), p) in Suggestions(description)
  {
    var text := Lower(description);
    var candidates := Candidates(text, AllPhaseForms);
    var sorted := SortByScore(candidates);
    var c := Scored(text, p);
    AllPhaseFormsEnumerates();
    assert AllPhaseForms[p.Ordinal()] == p;
    CandidatesMembership(text, AllPhaseForms, c);
    SortPermutation(candidates);
    SortNonIncreasing(candidates);
    assert c in multiset(sorted);
    var j :| 0 <= j < |sorted| && sorted[j] == c;
    var i :| 0 <= i < |Suggestions(description)| && Suggestions(description)[i] == m;
    assert sorted[i] == m;
    assert j < 5;
    assert Suggestions(description)[j] == c;
  }

  /**
   * Ties at the cut go to the earlier form: a form that scores as much as
   * some suggestion and is declared before it is itself a suggestion.
   */
  lemma SuggestionsKeepEarlierTies(description: string, m: Match, p: PhaseForm)
    requires m in Suggestions(description)
    requires Scored(Lower(description), p).confidenceScore == m.confidenceScore
    requires p.Ordinal() < m.phaseForm.Ordinal()
    ensures Scored(Lower(description), p) in Suggestions(description)
  {
    var text := Lower(description);
    var candidates := Candidates(text, AllPhaseForms);
    var sorted := SortByScore(candidates);
    var c := Scored(text, p);
    SuggestionsAreCandidates(description);
    AllPhaseFormsEnumerates();
    assert AllPhaseForms[p.Ordinal()] == p;
    CandidatesMembership(text, AllPhaseForms, c);
    SortPermutation(candidates);
    assert c in multiset(sorted);
    var j :| 0 <= j < |sorted| && sorted[j] == c;
    var i :| 0 <= i < |Suggestions(description)| && Suggestions(description)[i] == m;
    assert sorted[i] == m;
    SortedTieOrder(candidates, i, j);
    assert Suggestions(description)[j] == c;
  }

  /** In the sorted candidates, of two entries that tie, the earlier-declared form comes first. */
  lemma SortedTieOrder(candidates: seq<Match>, i: int, j: int)
    requires InDeclarationOrder(candidates)
    requires 0 <= i < |SortByScore(candidates)| && 0 <= j < |SortByScore(candidates)|
    requires SortByScore(candidates)[i].confidenceScore == SortByScore(candidates)[j].confidenceScore
    requires SortByScore(candidates)[j].phaseForm.Ordinal() < SortByScore(candidates)[i].phaseForm.Ordinal()
    ensures j < i
  {
    SortTies(candidates);
  }

  /** With fewer than five suggestions, every form that scores is among them. */
  lemma SuggestionsComplete(description: string, p: PhaseForm)
    requires |Suggestions(description)| < 5
    requires Scored(Lower(description), p).confidenceScore > 0
    ensures Scored(Lower(description), p) in Suggestions(description)
  {
    var text := Lower(description);
    var candidates := Candidates(text, AllPhaseForms);
    var c := Scored(text, p);
    AllPhaseFormsEnumerates();
    assert AllPhaseForms[p.Ordinal()] == p;
    CandidatesMembership(text, AllPhaseForms, c);
    SortPermutation(candidates);
    assert c in multiset(SortByScore(candidates));
    assert Suggestions(description) == SortByScore(candidates);
  }

  /**
   * There are no suggestions exactly when no phase form scores: with none,
   * any form `p` scores zero; with some, the first one's form scores.
   */
  lemma NoSuggestionsIff(description: string, p: PhaseForm)
    ensures Suggestions(description) == [] ==> Scored(Lower(description), p).confidenceScore == 0
    ensures Suggestions(description) != [] ==>
              Scored(Lower(description), Suggestions(description)[0].phaseForm).confidenceScore > 0
  {
    if Suggestions(description) == [] {
      if Scored(Lower(description), p).confidenceScore > 0 {
        SuggestionsComplete(description, p);
      }
    } else {
      SuggestionsAreCandidates(description);
      assert Suggestions(description)[0] in Suggestions(description);
    }
  }

  // ---------------------------------------------------------------------------
  // The matcher
  // ---------------------------------------------------------------------------

  /** One inner loop: tests every term in turn, earning `weight` points for each one the text contains. */
  method ScoreTerms(text: string, terms: seq<string>, weight: nat) returns (points: nat, hits: seq<string>)
    ensures points == weight * |Hits(text, terms)|
    ensures hits == Hits(text, terms)
  {
    points := 0;
    hits := [];
    var k := 0;
    while k < |terms|
      invariant 0 <= k <= |terms|
      invariant points == weight * |Hits(text, terms[..k])|
      invariant hits == Hits(text, terms[..k])
    {
      var term := terms[k];
      assert terms[..k + 1][..k] == terms[..k];
      if Contains(text, term) {
        points := points + weight;
        hits := hits + [term];
      }
      k := k + 1;
    }
    assert terms[..k] == terms;
  }

  /** The inner loops: tests every keyword, then every phrase, accumulating score and hits. */
  method ScoreMapping(text: string, mapping: KeywordMapping) returns (score: nat, matchedTerms: seq<string>)
    ensures score == Score(text, mapping)
    ensures matchedTerms == Hits(text, mapping.keywords) + Hits(text, mapping.phrases)
  {
    var keywordPoints, keywordHits := ScoreTerms(text, mapping.keywords, KeywordWeight);
    var phrasePoints, phraseHits := ScoreTerms(text, mapping.phrases, PhraseWeight);
    score := keywordPoints + phrasePoints;
    matchedTerms := keywordHits + phraseHits;
  }

  /** One pass of the outer loop's body: the entry for `p`, whatever its score. */
  method ScoreForm(text: string, p: PhaseForm) returns (entry: Match)
    ensures entry == Scored(text, p)
  {
    var score, matchedTerms := ScoreMapping(text, KeywordMappings(p));
    entry := Match(p, score, matchedTerms, PhaseIntrinsics(p).keyVisual);
  }

  /** The outer loop: scores each of `forms` in turn and keeps those scoring above zero. */
  method CollectCandidates(text: string, forms: seq<PhaseForm>) returns (found: seq<Match>)
    ensures found == Candidates(text, forms)
  {
    found := [];
    var i := 0;
    while i < |forms|
      invariant 0 <= i <= |forms|
      invariant found == Candidates(text, forms[..i])
    {
      var entry := ScoreForm(text, forms[i]);
      EntriesExtend(text, forms, i);
      PositiveSnoc(Entries(text, forms[..i]), entry);
      if entry.confidenceScore > 0 {
        found := found + [entry];
      }
      i := i + 1;
    }
    assert forms[..i] == forms;
  }

  /**
   * `match_description_to_phaseform`: scores every phase form against the
   * lower-cased description, keeps those scoring above zero, sorts them
   * stably by score, highest first, and returns at most five.
   */
  method MatchDescriptionToPhaseForm(description: string) returns (matches: seq<Match>)
    ensures matches == Suggestions(description)
    ensures |matches| <= 5
    ensures forall i :: 0 <= i < |matches| ==> matches[i].confidenceScore > 0
    ensures NonIncreasing(matches)
    ensures TiesInDeclarationOrder(matches)
  {
    var descriptionLower := Lower(description);
    var found := CollectCandidates(descriptionLower, AllPhaseForms);
    var sorted := SortByScore(found);
    matches := Take(sorted, 5);
    SuggestionsOrdered(description);
  }
}
