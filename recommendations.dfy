/**
 * Treatment-plan synthesis (`generateTreatmentRecommendations` in
 * server/routes.ts): a species template seeds three lists, then every disease
 * with treatment details appends its advice to them, in order.
 */
module Recommendations {
  import opened JsString
  import opened PlantId

  /** One treatment track: a fixed description, its steps and a fixed timeline. */
  datatype TrackPlan = TrackPlan(description: string, steps: seq<string>, timeline: string)

  datatype TreatmentPlan = TreatmentPlan(immediate: seq<string>, organic: TrackPlan, chemical: TrackPlan)

  const OrganicDescription := "Natural, eco-friendly treatment options"
  const OrganicTimeline := "2-4 weeks for visible improvement"
  const ChemicalDescription := "Fast-acting treatment for severe cases"
  const ChemicalTimeline := "1-2 weeks for visible improvement"

  /** The three lists a species template seeds: immediate steps, organic steps, chemical steps. */
  datatype Template = Template(immediate: seq<string>, organic: seq<string>, chemical: seq<string>)

  /** No template: the suggestion has no (truthy) name. */
  const NoTemplate := Template([], [], [])

  const MonsteraTemplate := Template(
    [ "Water when top inch of soil is dry",
      "Provide bright, indirect light",
      "Maintain 60-70% humidity",
      "Clean leaves weekly for optimal photosynthesis" ],
    [ "Use neem oil spray for pest prevention",
      "Apply compost-based fertilizer monthly",
      "Mist leaves regularly for humidity" ],
    [ "Balanced liquid fertilizer (20-20-20) bi-weekly",
      "Systemic insecticide if pests detected" ])

  const GenericTemplate := Template(
    [ "Check soil moisture regularly",
      "Ensure proper drainage",
      "Monitor for pests and diseases",
      "Provide appropriate lighting for your plant species" ],
    [ "Use organic compost for fertilization",
      "Apply neem oil for natural pest control",
      "Maintain proper humidity levels",
      "Prune dead or damaged parts" ],
    [ "Use balanced NPK fertilizer as needed",
      "Apply fungicide if disease symptoms appear",
      "Use appropriate pesticides for specific pest problems" ])

  const SpeciesKeyword := "monstera"

  /** JavaScript truthiness of `plantSuggestion?.name`: present and not empty. */
  predicate HasName(s: Option<SpeciesSuggestion>)
  {
    s.Some? && s.value.name.Some? && s.value.name.value != ""
  }

  /** Whether a present name selects the Monstera template. */
  predicate IsMonstera(name: string)
  {
    Includes(ToLowerCase(name), SpeciesKeyword)
  }

  /** The template the species branch seeds the plan with. */
  function SeedTemplate(s: Option<SpeciesSuggestion>): Template
  {
    if !HasName(s) then NoTemplate
    else if IsMonstera(s.value.name.value) then MonsteraTemplate
    else GenericTemplate
  }

  /** The three lists of the plan a disease contributes to. */
  datatype Target = Immediate | OrganicSteps | ChemicalSteps

  /** `disease.details?.treatment`. */
  function TreatmentOf(d: DiseaseSuggestion): Option<Treatment>
  {
    if d.details.Some? then d.details.value.treatment else None
  }

  /** A list the source pushes only when it is present. */
  function Present(o: Option<seq<string>>): seq<string>
  {
    if o.Some? then o.value else []
  }

  /** `xs.slice(0, n)`. */
  function Slice(xs: seq<string>, n: nat): (r: seq<string>)
    ensures |r| <= n && r <= xs
    ensures |xs| <= n ==> r == xs
    ensures |xs| > n ==> |r| == n
  {
    if |xs| <= n then xs else xs[..n]
  }

  /** What one disease appends to one list of the plan. */
  function Contribution(d: DiseaseSuggestion, target: Target): seq<string>
  {
    match TreatmentOf(d)
    case None => []
    case Some(t) =>
      match target
      case Immediate => Slice(Present(t.prevention), 2)
      case OrganicSteps => Present(t.biological)
      case ChemicalSteps => Present(t.chemical)
  }

  /** Everything the diseases `ds` append to one list, in disease order. */
  function Additions(ds: seq<DiseaseSuggestion>, target: Target): seq<string>
    decreases |ds|
  {
    if ds == [] then [] else Additions(ds[..|ds| - 1], target) + Contribution(ds[|ds| - 1], target)
  }

  /** `healthAssessment?.suggestions`, or none. */
  function Diseases(h: Option<Disease>): seq<DiseaseSuggestion>
  {
    if h.Some? && h.value.suggestions.Some? then h.value.suggestions.value else []
  }

  function SeedOf(t: Template, target: Target): seq<string>
  {
    match target
    case Immediate => t.immediate
    case OrganicSteps => t.organic
    case ChemicalSteps => t.chemical
  }

  function ListOf(p: TreatmentPlan, target: Target): seq<string>
  {
    match target
    case Immediate => p.immediate
    case OrganicSteps => p.organic.steps
    case ChemicalSteps => p.chemical.steps
  }

  /**
   * The plan as a whole: each list is its template's seed followed by what
   * the diseases add; descriptions and timelines are the fixed literals.
   */
  function Synthesize(h: Option<Disease>, s: Option<SpeciesSuggestion>): (r: TreatmentPlan)
    ensures r.organic.description == OrganicDescription && r.organic.timeline == OrganicTimeline
    ensures r.chemical.description == ChemicalDescription && r.chemical.timeline == ChemicalTimeline
    ensures forall target :: SeedOf(SeedTemplate(s), target) <= ListOf(r, target)
  {
    var seed := SeedTemplate(s);
    var ds := Diseases(h);
    TreatmentPlan(
      seed.immediate + Additions(ds, Immediate),
      TrackPlan(OrganicDescription, seed.organic + Additions(ds, OrganicSteps), OrganicTimeline),
      TrackPlan(ChemicalDescription, seed.chemical + Additions(ds, ChemicalSteps), ChemicalTimeline))
  }

  /**
   * `generateTreatmentRecommendations(healthAssessment, plantSuggestion)`:
   * builds the plan by reassigning the lists in the species branch and then
   * pushing each disease's advice onto them.
   */
  method GenerateTreatmentRecommendations(healthAssessment: Option<Disease>, plantSuggestion: Option<SpeciesSuggestion>)
    returns (plan: TreatmentPlan)
    ensures plan == Synthesize(healthAssessment, plantSuggestion)
    ensures plan.organic.description == OrganicDescription && plan.organic.timeline == OrganicTimeline
    ensures plan.chemical.description == ChemicalDescription && plan.chemical.timeline == ChemicalTimeline
  {
    var immediate: seq<string> := [];
    var organicSteps: seq<string> := [];
    var chemicalSteps: seq<string> := [];

    if plantSuggestion.Some? && plantSuggestion.value.name.Some? && plantSuggestion.value.name.value != "" {
      var plantName := ToLowerCase(plantSuggestion.value.name.value);
      if Includes(plantName, SpeciesKeyword) {
        immediate := MonsteraTemplate.immediate;
        organicSteps := MonsteraTemplate.organic;
        chemicalSteps := MonsteraTemplate.chemical;
      } else {
        immediate := GenericTemplate.immediate;
        organicSteps := GenericTemplate.organic;
        chemicalSteps := GenericTemplate.chemical;
      }
    }
    ghost var seed := SeedTemplate(plantSuggestion);
    assert seed == Template(immediate, organicSteps, chemicalSteps);

    if healthAssessment.Some? && healthAssessment.value.suggestions.Some? && |healthAssessment.value.suggestions.value| > 0 {
      immediate, organicSteps, chemicalSteps :=
        AddDiseaseTreatments(healthAssessment.value.suggestions.value, immediate, organicSteps, chemicalSteps);
    } else {
      assert Diseases(healthAssessment) == [];
    }

    plan := TreatmentPlan(
      immediate,
      TrackPlan(OrganicDescription, organicSteps, OrganicTimeline),
      TrackPlan(ChemicalDescription, chemicalSteps, ChemicalTimeline));
  }

  /**
   * The disease loop of `generateTreatmentRecommendations`: every suggestion
   * with `details.treatment` pushes its biological and chemical entries and
   * its first two prevention entries onto the three lists.
   */
  method AddDiseaseTreatments(suggestions: seq<DiseaseSuggestion>, immediate0: seq<string>, organic0: seq<string>, chemical0: seq<string>)
    returns (immediate: seq<string>, organicSteps: seq<string>, chemicalSteps: seq<string>)
    ensures immediate == immediate0 + Additions(suggestions, Immediate)
    ensures organicSteps == organic0 + Additions(suggestions, OrganicSteps)
    ensures chemicalSteps == chemical0 + Additions(suggestions, ChemicalSteps)
  {
    immediate, organicSteps, chemicalSteps := immediate0, organic0, chemical0;
    for i := 0 to |suggestions|
      invariant immediate == immediate0 + Additions(suggestions[..i], Immediate)
      invariant organicSteps == organic0 + Additions(suggestions[..i], OrganicSteps)
      invariant chemicalSteps == chemical0 + Additions(suggestions[..i], ChemicalSteps)
    {
      var disease := suggestions[i];
      ExtendStep(immediate0, suggestions, i, Immediate);
      ExtendStep(organic0, suggestions, i, OrganicSteps);
      ExtendStep(chemical0, suggestions, i, ChemicalSteps);
      ghost var before := (immediate, organicSteps, chemicalSteps);
      if disease.details.Some? && disease.details.value.treatment.Some? {
        var treatment := disease.details.value.treatment.value;
        if treatment.biological.Some? {
          organicSteps := organicSteps + treatment.biological.value;
        }
        if treatment.chemical.Some? {
          chemicalSteps := chemicalSteps + treatment.chemical.value;
        }
        if treatment.prevention.Some? {
          var prevention := treatment.prevention.value;
          immediate := immediate + (if |prevention| <= 2 then prevention else prevention[..2]);
        }
      }
      assert immediate == before.0 + Contribution(disease, Immediate);
      assert organicSteps == before.1 + Contribution(disease, OrganicSteps);
      assert chemicalSteps == before.2 + Contribution(disease, ChemicalSteps);
    }
    assert suggestions[..|suggestions|] == suggestions;
  }

  lemma AppendAssociative(a: seq<string>, b: seq<string>, c: seq<string>)
    ensures (a + b) + c == a + (b + c)
  {
  }

  /** One more disease, after a seed: its contribution goes after everything before it. */
  lemma ExtendStep(seed: seq<string>, ds: seq<DiseaseSuggestion>, i: nat, target: Target)
    requires i < |ds|
    ensures seed + Additions(ds[..i + 1], target) == (seed + Additions(ds[..i], target)) + Contribution(ds[i], target)
  {
    AdditionsStep(ds, i, target);
    AppendAssociative(seed, Additions(ds[..i], target), Contribution(ds[i], target));
  }

  /** One more disease: its contribution goes after everything before it. */
  lemma AdditionsStep(ds: seq<DiseaseSuggestion>, i: nat, target: Target)
    requires i < |ds|
    ensures Additions(ds[..i + 1], target) == Additions(ds[..i], target) + Contribution(ds[i], target)
  {
    assert ds[..i + 1][..i] == ds[..i];
  }

  // ---------------------------------------------------------------------------
  // Properties of the synthesised plan
  // ---------------------------------------------------------------------------

  /** Appending diseases appends their contributions: augmentation is additive and order-preserving. */
  lemma {:induction false} AdditionsAppend(a: seq<DiseaseSuggestion>, b: seq<DiseaseSuggestion>, target: Target)
    ensures Additions(a + b, target) == Additions(a, target) + Additions(b, target)
    decreases |b|
  {
    if b == [] {
      assert a + b == a;
    } else {
      var b' := b[..|b| - 1];
      assert (a + b)[..|a + b| - 1] == a + b';
      AdditionsAppend(a, b', target);
    }
  }

  /** Each disease adds at most two immediate steps. */
  lemma {:induction false} ImmediateGrowsByAtMostTwo(ds: seq<DiseaseSuggestion>)
    ensures |Additions(ds, Immediate)| <= 2 * |ds|
    decreases |ds|
  {
    if ds != [] {
      ImmediateGrowsByAtMostTwo(ds[..|ds| - 1]);
    }
  }

  /**
   * Nothing is invented: every added step is one of some disease's entries for
   * that list; immediate steps come from the first two prevention entries.
   */
  lemma {:induction false} AdditionsComeFromDiseases(ds: seq<DiseaseSuggestion>, target: Target, x: string)
    requires x in Additions(ds, target)
    ensures exists k :: 0 <= k < |ds| && x in Contribution(ds[k], target)
    decreases |ds|
  {
    var last := |ds| - 1;
    if x in Contribution(ds[last], target) {
      assert 0 <= last < |ds|;
    } else {
      AdditionsComeFromDiseases(ds[..last], target, x);
      var k :| 0 <= k < last && x in Contribution(ds[..last][k], target);
      assert ds[..last][k] == ds[k];
    }
  }

  /** A disease that contributes nothing to a list can be dropped from the list's additions. */
  lemma AdditionsSkip(before: seq<DiseaseSuggestion>, d: DiseaseSuggestion, after: seq<DiseaseSuggestion>, target: Target)
    requires Contribution(d, target) == []
    ensures Additions(before + [d] + after, target) == Additions(before + after, target)
  {
    assert [d][..0] == [];
    assert Additions([d], target) == [];
    calc {
      Additions(before + [d] + after, target);
      { AdditionsAppend(before + [d], after, target); }
      Additions(before + [d], target) + Additions(after, target);
      { AdditionsAppend(before, [d], target); }
      Additions(before, target) + Additions(after, target);
      { AdditionsAppend(before, after, target); }
      Additions(before + after, target);
    }
  }

  /** A disease without `details.treatment` changes nothing, wherever it stands. */
  lemma UntreatedDiseaseAddsNothing(before: seq<DiseaseSuggestion>, d: DiseaseSuggestion, after: seq<DiseaseSuggestion>, s: Option<SpeciesSuggestion>)
    requires TreatmentOf(d).None?
    ensures Synthesize(Some(Disease(Some(before + [d] + after))), s) == Synthesize(Some(Disease(Some(before + after))), s)
  {
    AdditionsSkip(before, d, after, Immediate);
    AdditionsSkip(before, d, after, OrganicSteps);
    AdditionsSkip(before, d, after, ChemicalSteps);
  }

  /**
   * Two diseases in sequence: the first one's entries come first, then the
   * second one's; each list keeps its seed as a prefix.
   */
  lemma TwoDiseasesInOrder(d1: DiseaseSuggestion, d2: DiseaseSuggestion, s: Option<SpeciesSuggestion>, target: Target)
    ensures ListOf(Synthesize(Some(Disease(Some([d1, d2]))), s), target)
         == SeedOf(SeedTemplate(s), target) + Contribution(d1, target) + Contribution(d2, target)
  {
    assert [d1, d2][..1] == [d1];
    assert [d1][..0] == [];
    assert Additions([d1], target) == Contribution(d1, target);
    assert Additions([d1, d2], target) == Contribution(d1, target) + Contribution(d2, target);
    AppendAssociative(SeedOf(SeedTemplate(s), target), Contribution(d1, target), Contribution(d2, target));
  }

  /** The seed is a prefix of every list, and the rest is exactly the diseases' additions. */
  lemma SeedIsPrefix(h: Option<Disease>, s: Option<SpeciesSuggestion>, target: Target)
    ensures var l := ListOf(Synthesize(h, s), target);
      var seed := SeedOf(SeedTemplate(s), target);
      |seed| <= |l| && l[..|seed|] == seed && l[|seed|..] == Additions(Diseases(h), target)
  {
  }

  /**
   * Template exclusivity: no name means no template; otherwise exactly one of
   * the Monstera and generic templates, chosen by the lowered name, and the two
   * templates share no step, so a seed is never a mix.
   */
  lemma TemplateExclusive(s: Option<SpeciesSuggestion>)
    ensures SeedTemplate(s) == NoTemplate <==> !HasName(s)
    ensures SeedTemplate(s) == MonsteraTemplate <==> HasName(s) && IsMonstera(s.value.name.value)
    ensures SeedTemplate(s) == GenericTemplate <==> HasName(s) && !IsMonstera(s.value.name.value)
    ensures |MonsteraTemplate.immediate| == 4 && |MonsteraTemplate.organic| == 3 && |MonsteraTemplate.chemical| == 2
    ensures |GenericTemplate.immediate| == 4 && |GenericTemplate.organic| == 4 && |GenericTemplate.chemical| == 3
    ensures forall x :: x in MonsteraTemplate.immediate ==> x !in GenericTemplate.immediate
    ensures forall x :: x in MonsteraTemplate.organic ==> x !in GenericTemplate.organic
    ensures forall x :: x in MonsteraTemplate.chemical ==> x !in GenericTemplate.chemical
  {
  }

  /** With no (or an empty) name, the lists hold only what the diseases add. */
  lemma NoNameNoTemplate(h: Option<Disease>, s: Option<SpeciesSuggestion>)
    requires !HasName(s)
    ensures Synthesize(h, s).immediate == Additions(Diseases(h), Immediate)
    ensures Synthesize(h, s).organic.steps == Additions(Diseases(h), OrganicSteps)
    ensures Synthesize(h, s).chemical.steps == Additions(Diseases(h), ChemicalSteps)
  {
  }

  /** The species match ignores letter case. */
  lemma MonsteraMatchIgnoresCase(n1: string, n2: string)
    requires ToLowerCase(n1) == ToLowerCase(n2)
    ensures IsMonstera(n1) <==> IsMonstera(n2)
  {
  }

  lemma IsMonsteraSamples()
    ensures IsMonstera("Monstera Deliciosa")
    ensures IsMonstera("monstera deliciosa")
    ensures IsMonstera("MONSTERA")
  {
    var l1 := ToLowerCase("Monstera Deliciosa");
    assert l1[0] == 'm' && l1[1] == 'o' && l1[2] == 'n' && l1[3] == 's';
    assert l1[4] == 't' && l1[5] == 'e' && l1[6] == 'r' && l1[7] == 'a';
    assert l1[0..8] == SpeciesKeyword;
    assert OccursAt(l1, SpeciesKeyword, 0);
    var l2 := ToLowerCase("monstera deliciosa");
    assert l2[0] == 'm' && l2[1] == 'o' && l2[2] == 'n' && l2[3] == 's';
    assert l2[4] == 't' && l2[5] == 'e' && l2[6] == 'r' && l2[7] == 'a';
    assert l2[0..8] == SpeciesKeyword;
    assert OccursAt(l2, SpeciesKeyword, 0);
    var l3 := ToLowerCase("MONSTERA");
    assert l3[0] == 'm' && l3[1] == 'o' && l3[2] == 'n' && l3[3] == 's';
    assert l3[4] == 't' && l3[5] == 'e' && l3[6] == 'r' && l3[7] == 'a';
    assert l3[0..8] == SpeciesKeyword;
    assert OccursAt(l3, SpeciesKeyword, 0);
  }

  /**
   * A Monstera with one leaf-spot disease: each list is the Monstera template
   * plus that disease's advice, and the third prevention entry is dropped.
   */
  lemma MonsteraLeafSpotScenario()
    ensures var leafSpot := DiseaseSuggestion("leaf spot", 0.8, Some(DiseaseDetails(Some(Treatment(
              Some(["neem"]), Some(["copper fungicide"]),
              Some(["improve airflow", "reduce leaf wetness", "avoid overhead watering"]))))));
      var plan := Synthesize(Some(Disease(Some([leafSpot]))), Some(SpeciesSuggestion(Some("Monstera Deliciosa"), Some(0.9), None)));
      plan.organic.steps == MonsteraTemplate.organic + ["neem"] &&
      plan.chemical.steps == MonsteraTemplate.chemical + ["copper fungicide"] &&
      plan.immediate == MonsteraTemplate.immediate + ["improve airflow", "reduce leaf wetness"]
  {
    IsMonsteraSamples();
  }
}
