/** The home page's two summary arrays: the four section cards and the four
    learning path cards. They are built on every render, also while the data
    is still loading, through optional chaining on `data` with `|| ''` and
    `|| 0` defaults. */
module HomePage {
  import opened Js
  import opened Schema
  import opened PageReads
  import FallbackDocument
  import LearningPathCard

  datatype SectionSummary =
    SectionSummary(title: string, description: Value, icon: string, path: string, color: string)

  datatype PathSummary =
    PathSummary(title: string, description: string, phaseCount: Value, path: string, color: string)

  /** The section ids of the learning paths page, which the path cards link
      to as anchors. */
  const LearningPathsSectionIds: seq<string> := ["ai-capabilities", "cutting-edge", "brain-cognition", "ai-neuroscience"]

  /** The card texts. */
  const CapabilitiesCardTitle := "AI Capability Enhancement Technologies"
  const IndiaCardTitle := "AI Research in India"
  const InternshipsCardTitle := "Internship Opportunities"
  const LearningPathsCardTitle := "Learning Paths"
  const AICapabilitiesPathTitle := "AI Capabilities"
  const CuttingEdgePathTitle := "Cutting-Edge AI"
  const BrainCognitionPathTitle := "Brain & Cognition"
  const NeurosciencePathTitle := "AI & Neuroscience"
  const AICapabilitiesBlurb := "Master advanced AI capabilities from RAG to agentic systems."
  const CuttingEdgeBlurb := "Explore bleeding-edge AI technologies and research frontiers."
  const BrainCognitionBlurb := "Understanding the brain and cognitive processes fundamentals."
  const NeuroscienceBlurb := "Merging AI with neuroscience for advanced cognitive systems."

  /** `data?.k1.k2...`: `undefined` when `data` is nullish, otherwise an
      ordinary chain of reads that throws on a missing intermediate. */
  function OptionalChain(data: Value, path: Path): (r: Result<Value>)
    ensures (data.Undefined? || data.Null?) ==> r == Ok(Undefined)
  {
    if data.Undefined? || data.Null? then Ok(Undefined) else PropPath(data, path)
  }

  /** `data?.<section>.description || ''`: '' with no data, and never a
      falsy value other than ''. */
  function SectionDescription(data: Value, section: string): (r: Result<Value>)
    ensures (data.Undefined? || data.Null?) ==> r == Ok(Str(""))
    ensures r.Ok? ==> Truthy(r.value) || r.value == Str("")
  {
    var d :- OptionalChain(data, [section, "description"]);
    Ok(Or(d, Str("")))
  }

  /** `data?.learningPaths.<path>.phases.length || 0`: 0 with no data, and
      never a falsy value other than 0. */
  function PhaseCount(data: Value, path: string): (r: Result<Value>)
    ensures (data.Undefined? || data.Null?) ==> r == Ok(Num(0))
    ensures r.Ok? ==> Truthy(r.value) || r.value == Num(0)
  {
    var n :- OptionalChain(data, ["learningPaths", path, "phases", "length"]);
    Ok(Or(n, Num(0)))
  }

  /** `sections`, element by element; a throwing read aborts the render. */
  function Sections(data: Value): (r: Result<seq<SectionSummary>>)
    ensures r.Ok? ==> |r.value| == 4
    ensures r.Ok? ==>
              [r.value[0].path, r.value[1].path, r.value[2].path, r.value[3].path]
              == ["/capabilities", "/india-research", "/internships", "/learning-paths"]
  {
    var capabilities :- SectionDescription(data, "aiCapabilityEnhancementTechnologies");
    var india :- SectionDescription(data, "aiResearchInIndia");
    var internships :- SectionDescription(data, "internshipOpportunities");
    var paths :- SectionDescription(data, "learningPaths");
    Ok([ SectionSummary(CapabilitiesCardTitle, capabilities, "\U{1F9E0}", "/capabilities", "text-primary-400"),
         SectionSummary(IndiaCardTitle, india, "\U{1F1EE}\U{1F1F3}", "/india-research", "text-blue-400"),
         SectionSummary(InternshipsCardTitle, internships, "\U{1F393}", "/internships", "text-purple-400"),
         SectionSummary(LearningPathsCardTitle, paths, "\U{1F6E4}\U{FE0F}", "/learning-paths", "text-green-400") ])
  }

  /** `learningPaths`, element by element. */
  function LearningPathSummaries(data: Value): (r: Result<seq<PathSummary>>)
    ensures r.Ok? ==> |r.value| == 4
    ensures r.Ok? ==>
              [r.value[0].path, r.value[1].path, r.value[2].path, r.value[3].path]
              == ["/learning-paths#ai-capabilities", "/learning-paths#cutting-edge",
                  "/learning-paths#brain-cognition", "/learning-paths#ai-neuroscience"]
    ensures r.Ok? ==>
              [r.value[0].color, r.value[1].color, r.value[2].color, r.value[3].color]
              == ["primary", "purple", "blue", "green"]
  {
    var capabilities :- PhaseCount(data, "aiCapabilitiesPath");
    var cutting :- PhaseCount(data, "cuttingEdgeAIPath");
    var brain :- PhaseCount(data, "brainCognitionPath");
    var merged :- PhaseCount(data, "mergedAINeurosciencePath");
    Ok([ PathSummary(AICapabilitiesPathTitle, AICapabilitiesBlurb,
                     capabilities, "/learning-paths#ai-capabilities", "primary"),
         PathSummary(CuttingEdgePathTitle, CuttingEdgeBlurb,
                     cutting, "/learning-paths#cutting-edge", "purple"),
         PathSummary(BrainCognitionPathTitle, BrainCognitionBlurb,
                     brain, "/learning-paths#brain-cognition", "blue"),
         PathSummary(NeurosciencePathTitle, NeuroscienceBlurb,
                     merged, "/learning-paths#ai-neuroscience", "green") ])
  }

  /** Before the data arrives every description is '' and every phase count
      0; nothing throws. */
  lemma HomeWithoutData(data: Value)
    requires data.Undefined? || data.Null?
    ensures Sections(data).Ok? && forall k :: 0 <= k < 4 ==> Sections(data).value[k].description == Str("")
    ensures LearningPathSummaries(data).Ok? &&
            forall k :: 0 <= k < 4 ==> LearningPathSummaries(data).value[k].phaseCount == Num(0)
  {
  }

  lemma DescriptionAt(doc: Value, section: string)
    requires Field(doc, section).Some? && StrField(Field(doc, section).value, "description").Some?
    ensures SectionDescription(doc, section) == Ok(Str(StrField(Field(doc, section).value, "description").value))
  {
    var x := Field(doc, section).value;
    PropPathThroughField(doc, [section, "description"]);
    assert [section, "description"][1..] == ["description"];
    PropPathThroughField(x, ["description"]);
    assert ["description"][1..] == [];
  }

  lemma PhaseCountAt(doc: Value, path: string)
    requires Field(doc, "learningPaths").Some? && Field(Field(doc, "learningPaths").value, path).Some?
    requires ListField(Field(Field(doc, "learningPaths").value, path).value, "phases").Some?
    ensures PhaseCount(doc, path) == Ok(Num(|ListField(Field(Field(doc, "learningPaths").value, path).value, "phases").value|))
  {
    var lp := Field(doc, "learningPaths").value;
    var p := Field(lp, path).value;
    var phases := ListField(p, "phases").value;
    var chain := ["learningPaths", path, "phases", "length"];
    PropPathThroughField(doc, chain);
    assert chain[1..] == [path, "phases", "length"];
    PropPathThroughField(lp, [path, "phases", "length"]);
    assert [path, "phases", "length"][1..] == ["phases", "length"];
    PropPathThroughField(p, ["phases", "length"]);
    assert ["phases", "length"][1..] == ["length"];
    assert Prop(p, "phases") == Ok(Arr(phases));
    assert PropPath(Arr(phases), ["length"]) == Ok(Num(|phases|));
  }

  /** A well-shaped database has well-shaped sections under the expected
      keys. */
  lemma DatabaseSections(doc: Value)
    requires DecodeDatabase(doc).Some?
    ensures var db := DecodeDatabase(doc).value;
            Field(doc, "aiCapabilityEnhancementTechnologies").Some? &&
            DecodeCapabilities(Field(doc, "aiCapabilityEnhancementTechnologies").value)
              == Some(db.aiCapabilityEnhancementTechnologies) &&
            Field(doc, "aiResearchInIndia").Some? &&
            DecodeIndia(Field(doc, "aiResearchInIndia").value) == Some(db.aiResearchInIndia) &&
            Field(doc, "internshipOpportunities").Some? &&
            DecodeInternships(Field(doc, "internshipOpportunities").value) == Some(db.internshipOpportunities) &&
            Field(doc, "learningPaths").Some? &&
            DecodeLearningPaths(Field(doc, "learningPaths").value) == Some(db.learningPaths)
  {
  }

  lemma CapabilitiesDescription(doc: Value)
    requires Field(doc, "aiCapabilityEnhancementTechnologies").Some?
    requires DecodeCapabilities(Field(doc, "aiCapabilityEnhancementTechnologies").value).Some?
    ensures SectionDescription(doc, "aiCapabilityEnhancementTechnologies")
         == Ok(Str(DecodeCapabilities(Field(doc, "aiCapabilityEnhancementTechnologies").value).value.description))
  {
    DescriptionAt(doc, "aiCapabilityEnhancementTechnologies");
  }

  lemma IndiaDescription(doc: Value)
    requires Field(doc, "aiResearchInIndia").Some?
    requires DecodeIndia(Field(doc, "aiResearchInIndia").value).Some?
    ensures SectionDescription(doc, "aiResearchInIndia")
         == Ok(Str(DecodeIndia(Field(doc, "aiResearchInIndia").value).value.description))
  {
    DescriptionAt(doc, "aiResearchInIndia");
  }

  lemma InternshipsDescription(doc: Value)
    requires Field(doc, "internshipOpportunities").Some?
    requires DecodeInternships(Field(doc, "internshipOpportunities").value).Some?
    ensures SectionDescription(doc, "internshipOpportunities")
         == Ok(Str(DecodeInternships(Field(doc, "internshipOpportunities").value).value.description))
  {
    DescriptionAt(doc, "internshipOpportunities");
  }

  lemma LearningPathsDescription(doc: Value)
    requires Field(doc, "learningPaths").Some?
    requires DecodeLearningPaths(Field(doc, "learningPaths").value).Some?
    ensures SectionDescription(doc, "learningPaths")
         == Ok(Str(DecodeLearningPaths(Field(doc, "learningPaths").value).value.description))
  {
    DescriptionAt(doc, "learningPaths");
  }

  /** With a document of the declared shape each section card shows that
      section's description. */
  lemma HomeSectionsOnConformingDocument(doc: Value)
    requires DecodeDatabase(doc).Some?
    ensures var db := DecodeDatabase(doc).value;
            Sections(doc).Ok? &&
            Sections(doc).value[0].description == Str(db.aiCapabilityEnhancementTechnologies.description) &&
            Sections(doc).value[1].description == Str(db.aiResearchInIndia.description) &&
            Sections(doc).value[2].description == Str(db.internshipOpportunities.description) &&
            Sections(doc).value[3].description == Str(db.learningPaths.description)
  {
    DatabaseSections(doc);
    CapabilitiesDescription(doc);
    IndiaDescription(doc);
    InternshipsDescription(doc);
    LearningPathsDescription(doc);
  }

  /** The phase counts of a well-shaped learning paths section. */
  lemma PathPhaseCounts(doc: Value)
    requires Field(doc, "learningPaths").Some?
    requires DecodeLearningPaths(Field(doc, "learningPaths").value).Some?
    ensures var lp := DecodeLearningPaths(Field(doc, "learningPaths").value).value;
            PhaseCount(doc, "aiCapabilitiesPath") == Ok(Num(|lp.aiCapabilitiesPath.phases|)) &&
            PhaseCount(doc, "cuttingEdgeAIPath") == Ok(Num(|lp.cuttingEdgeAIPath.phases|)) &&
            PhaseCount(doc, "brainCognitionPath") == Ok(Num(|lp.brainCognitionPath.phases|)) &&
            PhaseCount(doc, "mergedAINeurosciencePath") == Ok(Num(|lp.mergedAINeurosciencePath.phases|))
  {
    PhaseCountAt(doc, "aiCapabilitiesPath");
    PhaseCountAt(doc, "cuttingEdgeAIPath");
    PhaseCountAt(doc, "brainCognitionPath");
    PhaseCountAt(doc, "mergedAINeurosciencePath");
  }

  /** With a document of the declared shape each path card's phase count is
      the length of that path's phase list. */
  lemma HomePathsOnConformingDocument(doc: Value)
    requires DecodeDatabase(doc).Some?
    ensures var lp := DecodeDatabase(doc).value.learningPaths;
            LearningPathSummaries(doc).Ok? &&
            LearningPathSummaries(doc).value[0].phaseCount == Num(|lp.aiCapabilitiesPath.phases|) &&
            LearningPathSummaries(doc).value[1].phaseCount == Num(|lp.cuttingEdgeAIPath.phases|) &&
            LearningPathSummaries(doc).value[2].phaseCount == Num(|lp.brainCognitionPath.phases|) &&
            LearningPathSummaries(doc).value[3].phaseCount == Num(|lp.mergedAINeurosciencePath.phases|)
  {
    DatabaseSections(doc);
    PathPhaseCounts(doc);
  }

  /** The section cards' descriptions are the four section description
      reads, in order. */
  lemma SectionsFrom(data: Value, d: seq<Value>)
    requires |d| == 4
    requires SectionDescription(data, "aiCapabilityEnhancementTechnologies") == Ok(d[0])
    requires SectionDescription(data, "aiResearchInIndia") == Ok(d[1])
    requires SectionDescription(data, "internshipOpportunities") == Ok(d[2])
    requires SectionDescription(data, "learningPaths") == Ok(d[3])
    ensures Sections(data).Ok?
    ensures forall k :: 0 <= k < 4 ==> Sections(data).value[k].description == d[k]
  {
  }

  lemma FallbackCapabilitiesDescription()
    ensures SectionDescription(FallbackDocument.Fallback(), "aiCapabilityEnhancementTechnologies") == Ok(Str("AI technologies that enhance capabilities"))
  {
    FallbackDocument.FallbackSections();
    FallbackDocument.CapabilitiesFields(FallbackDocument.CapabilitiesText, FallbackDocument.CollectiveTerm,
      FallbackDocument.MemoryTitle, FallbackDocument.AgenticTitle, FallbackDocument.OtherTitle);
    DescriptionAt(FallbackDocument.Fallback(), "aiCapabilityEnhancementTechnologies");
  }

  lemma FallbackIndiaDescription()
    ensures SectionDescription(FallbackDocument.Fallback(), "aiResearchInIndia") == Ok(Str("Overview of AI research in India"))
  {
    FallbackDocument.FallbackSections();
    FallbackDocument.IndiaFields(FallbackDocument.IndiaText, FallbackDocument.GovernmentTitle,
      FallbackDocument.AcademicTitle, FallbackDocument.PartnershipsTitle, FallbackDocument.IndustryTitle);
    DescriptionAt(FallbackDocument.Fallback(), "aiResearchInIndia");
  }

  lemma FallbackInternshipsDescription()
    ensures SectionDescription(FallbackDocument.Fallback(), "internshipOpportunities") == Ok(Str("AI internship opportunities"))
  {
    FallbackDocument.FallbackSections();
    FallbackDocument.InternshipsFields(FallbackDocument.InternshipsText);
    DescriptionAt(FallbackDocument.Fallback(), "internshipOpportunities");
  }

  lemma FallbackLearningPathsDescription()
    ensures SectionDescription(FallbackDocument.Fallback(), "learningPaths") == Ok(Str("AI learning paths"))
  {
    FallbackDocument.FallbackSections();
    FallbackDocument.FallbackLearningPathsFields();
    DescriptionAt(FallbackDocument.Fallback(), "learningPaths");
  }

  lemma FallbackCapabilitiesPhaseCount()
    ensures PhaseCount(FallbackDocument.Fallback(), "aiCapabilitiesPath") == Ok(Num(0))
  {
    FallbackDocument.FallbackSections();
    FallbackDocument.FallbackLearningPathsFields();
    FallbackDocument.EmptyPathPhases(FallbackDocument.CapabilitiesPathTitle);
    PhaseCountAt(FallbackDocument.Fallback(), "aiCapabilitiesPath");
  }

  lemma FallbackCuttingEdgePhaseCount()
    ensures PhaseCount(FallbackDocument.Fallback(), "cuttingEdgeAIPath") == Ok(Num(0))
  {
    FallbackDocument.FallbackSections();
    FallbackDocument.FallbackLearningPathsFields();
    FallbackDocument.EmptyPathPhases(FallbackDocument.CuttingEdgePathTitle);
    PhaseCountAt(FallbackDocument.Fallback(), "cuttingEdgeAIPath");
  }

  lemma FallbackBrainCognitionPhaseCount()
    ensures PhaseCount(FallbackDocument.Fallback(), "brainCognitionPath") == Ok(Num(0))
  {
    FallbackDocument.FallbackSections();
    FallbackDocument.FallbackLearningPathsFields();
    FallbackDocument.EmptyPathPhases(FallbackDocument.BrainCognitionPathTitle);
    PhaseCountAt(FallbackDocument.Fallback(), "brainCognitionPath");
  }

  lemma FallbackMergedPhaseCount()
    ensures PhaseCount(FallbackDocument.Fallback(), "mergedAINeurosciencePath") == Ok(Num(0))
  {
    FallbackDocument.FallbackSections();
    FallbackDocument.FallbackLearningPathsFields();
    FallbackDocument.EmptyPathPhases(FallbackDocument.NeurosciencePathTitle);
    PhaseCountAt(FallbackDocument.Fallback(), "mergedAINeurosciencePath");
  }

  /** After a failed load the section cards show the fallback's
      descriptions. */
  lemma HomeSectionsOnFallback()
    ensures Sections(FallbackDocument.Fallback()).Ok?
    ensures var s := Sections(FallbackDocument.Fallback()).value;
            [s[0].description, s[1].description, s[2].description, s[3].description]
            == [Str("AI technologies that enhance capabilities"), Str("Overview of AI research in India"),
                Str("AI internship opportunities"), Str("AI learning paths")]
  {
    FallbackCapabilitiesDescription();
    FallbackIndiaDescription();
    FallbackInternshipsDescription();
    FallbackLearningPathsDescription();
  }

  /** After a failed load every path card counts zero phases. */
  lemma HomePathsOnFallback()
    ensures LearningPathSummaries(FallbackDocument.Fallback()).Ok?
    ensures var s := LearningPathSummaries(FallbackDocument.Fallback()).value;
            [s[0].phaseCount, s[1].phaseCount, s[2].phaseCount, s[3].phaseCount] == [Num(0), Num(0), Num(0), Num(0)]
  {
    FallbackCapabilitiesPhaseCount();
    FallbackCuttingEdgePhaseCount();
    FallbackBrainCognitionPhaseCount();
    FallbackMergedPhaseCount();
  }

  /** The anchors the path cards link to are the learning paths page's
      section ids, in the same order. */
  lemma AnchorsMatchLearningPathsPage(data: Value)
    requires LearningPathSummaries(data).Ok?
    ensures forall k :: 0 <= k < 4 ==>
              LearningPathSummaries(data).value[k].path == "/learning-paths#" + LearningPathsSectionIds[k]
  {
    AnchorLinks();
  }

  lemma AnchorLinks()
    ensures "/learning-paths#" + "ai-capabilities" == "/learning-paths#ai-capabilities"
    ensures "/learning-paths#" + "cutting-edge" == "/learning-paths#cutting-edge"
    ensures "/learning-paths#" + "brain-cognition" == "/learning-paths#brain-cognition"
    ensures "/learning-paths#" + "ai-neuroscience" == "/learning-paths#ai-neuroscience"
  {
  }

  /** The colours the home page passes never reach the card's 'red' branch:
      the 'primary' card gets the default gradient and the other three their
      own. */
  lemma PathCardGradients(data: Value)
    requires LearningPathSummaries(data).Ok?
    ensures var s := LearningPathSummaries(data).value;
            forall k :: 0 <= k < 4 ==> LearningPathCard.Gradient(s[k].color) != "from-red-600 to-red-900"
    ensures LearningPathCard.Gradient(LearningPathSummaries(data).value[0].color) == LearningPathCard.PrimaryGradient
  {
    var s := LearningPathSummaries(data).value;
    CardColorGradients([s[0].color, s[1].color, s[2].color, s[3].color]);
  }

  lemma CardColorGradients(colors: seq<string>)
    requires colors == ["primary", "purple", "blue", "green"]
    ensures forall k :: 0 <= k < 4 ==> LearningPathCard.Gradient(colors[k]) != "from-red-600 to-red-900"
    ensures LearningPathCard.Gradient(colors[0]) == LearningPathCard.PrimaryGradient
  {
    forall k | 0 <= k < 4
      ensures LearningPathCard.Gradient(colors[k]) != "from-red-600 to-red-900"
    {
      LearningPathCard.GradientsDistinct(colors[k], "red");
    }
  }
}
