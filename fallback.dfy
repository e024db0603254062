/** The hand-written document the data provider substitutes when loading
    fails, and what it does and does not satisfy: every page's list reads
    except the Internships page's, and the declared schema except for the
    internship section and the descriptions of three learning paths.

    Each section is built from its texts and the document from its sections,
    so that what depends only on the shape is proved once for any texts; the
    lemmas about `Fallback()` itself instantiate those. */
module FallbackDocument {
  import opened Js
  import opened Schema
  import opened PageReads

  // The texts of the fallback document

  const Placeholder := "Temporary placeholder"
  const CollectiveTerm := "AI Enhancement Technologies"
  const CapabilitiesText := "AI technologies that enhance capabilities"
  const MemoryTitle := "Memory and Information Retrieval"
  const AgenticTitle := "Agentic Capabilities"
  const OtherTitle := "Other Advanced Capabilities"
  const IndiaText := "Overview of AI research in India"
  const GovernmentTitle := "Government Institutions"
  const AcademicTitle := "Academic Institutions"
  const PartnershipsTitle := "Public-Private Partnerships"
  const IndustryTitle := "Industry-Led Research Centers"
  const InternshipsText := "AI internship opportunities"
  const LearningPathsText := "AI learning paths"
  const CapabilitiesPathTitle := "AI Capabilities Path"
  const CuttingEdgePathTitle := "Cutting Edge AI Path"
  const BrainCognitionPathTitle := "Brain & Cognition Path"
  const NeurosciencePathTitle := "AI & Neuroscience Path"
  const ResourcesText := "Additional AI resources"
  const CoursesTitle := "Academic Courses"
  const BooksTitle := "Book Recommendations"
  const RagTitle := "RAG Resources"
  const ChainOfThoughtTitle := "Chain of Thought Guide"
  const QueriesTitle := "Search Queries"

  // Its shape

  function PlaceholderCategory(title: string): Value {
    Obj(map["title" := Str(title), "description" := Str(Placeholder), "technologies" := Arr([])])
  }

  function EmptyInstitutions(title: string): Value {
    Obj(map["title" := Str(title), "institutions" := Arr([])])
  }

  function NoTips(): Value {
    Obj(map["tips" := Arr([])])
  }

  function EmptyPath(title: string): Value {
    Obj(map["title" := Str(title), "phases" := Arr([])])
  }

  function EmptyTitledList(title: string, listKey: string): Value {
    Obj(map["title" := Str(title), listKey := Arr([])])
  }

  function CapabilitiesSection(description: string, term: string, memory: string, agentic: string, other: string): Value {
    Obj(map[
      "description" := Str(description),
      "collectiveTerms" := Arr([Str(term)]),
      "categories" := Obj(map[
        "memoryAndInformationRetrieval" := PlaceholderCategory(memory),
        "agenticCapabilities" := PlaceholderCategory(agentic),
        "otherAdvancedCapabilities" := PlaceholderCategory(other)])])
  }

  function IndiaSection(description: string, government: string, academic: string,
                        partnerships: string, industry: string): Value {
    Obj(map[
      "description" := Str(description),
      "categories" := Obj(map[
        "governmentInstitutions" := EmptyInstitutions(government),
        "academicInstitutions" := EmptyInstitutions(academic),
        "publicPrivatePartnerships" := EmptyInstitutions(partnerships),
        "industryLedResearchCenters" := EmptyInstitutions(industry)])])
  }

  /** Every application strategy with an empty `tips` list. */
  function TipsStrategies(): Value {
    Obj(map[
      "resumeCV" := NoTips(),
      "coverLetter" := NoTips(),
      "directOutreach" := NoTips(),
      "institutionGuidelines" := NoTips(),
      "portfolioMaterials" := NoTips()])
  }

  function InternshipsSection(description: string): Value {
    Obj(map[
      "description" := Str(description),
      "applicationTips" := Arr([]),
      "applicationStrategy" := TipsStrategies(),
      "actionPlan" := Obj(map["months" := Arr([])]),
      "backgroundLeveraging" := Obj(map["backgrounds" := Arr([])]),
      "cseStudentTips" := NoTips()])
  }

  function LearningPathsSection(description: string, capabilities: string, cuttingEdge: string,
                                brainCognition: string, merged: string): Value {
    Obj(map[
      "description" := Str(description),
      "aiCapabilitiesPath" := EmptyPath(capabilities),
      "cuttingEdgeAIPath" := EmptyPath(cuttingEdge),
      "brainCognitionPath" := EmptyPath(brainCognition),
      "mergedAINeurosciencePath" := EmptyPath(merged)])
  }

  function ResourcesSection(description: string, courses: string, books: string, rag: string,
                            chainOfThought: string, queries: string): Value {
    Obj(map[
      "description" := Str(description),
      "academicCourses" := EmptyTitledList(courses, "courses"),
      "bookRecommendations" := EmptyTitledList(books, "books"),
      "ragResources" := EmptyTitledList(rag, "details"),
      "chainOfThoughtGuide" := EmptyTitledList(chainOfThought, "details"),
      "searchQueries" := EmptyTitledList(queries, "queries")])
  }

  /** The five sections and an extra empty `papers` list. */
  function Document(capabilities: Value, india: Value, internships: Value, paths: Value, resources: Value): Value {
    Obj(map[
      "papers" := Arr([]),
      "aiCapabilityEnhancementTechnologies" := capabilities,
      "aiResearchInIndia" := india,
      "internshipOpportunities" := internships,
      "learningPaths" := paths,
      "additionalResources" := resources])
  }

  function FallbackCapabilities(): Value {
    CapabilitiesSection(CapabilitiesText, CollectiveTerm, MemoryTitle, AgenticTitle, OtherTitle)
  }

  function FallbackIndia(): Value {
    IndiaSection(IndiaText, GovernmentTitle, AcademicTitle, PartnershipsTitle, IndustryTitle)
  }

  function FallbackInternships(): Value {
    InternshipsSection(InternshipsText)
  }

  function FallbackLearningPaths(): Value {
    LearningPathsSection(LearningPathsText, CapabilitiesPathTitle, CuttingEdgePathTitle,
                         BrainCognitionPathTitle, NeurosciencePathTitle)
  }

  function FallbackResources(): Value {
    ResourcesSection(ResourcesText, CoursesTitle, BooksTitle, RagTitle, ChainOfThoughtTitle, QueriesTitle)
  }

  /** The fallback document. */
  function Fallback(): Value {
    Document(FallbackCapabilities(), FallbackIndia(), FallbackInternships(), FallbackLearningPaths(), FallbackResources())
  }

  // Where the sections sit

  lemma DocumentSections(c: Value, i: Value, n: Value, l: Value, r: Value)
    ensures Field(Document(c, i, n, l, r), "aiCapabilityEnhancementTechnologies") == Some(c)
    ensures Field(Document(c, i, n, l, r), "aiResearchInIndia") == Some(i)
    ensures Field(Document(c, i, n, l, r), "internshipOpportunities") == Some(n)
    ensures Field(Document(c, i, n, l, r), "learningPaths") == Some(l)
    ensures Field(Document(c, i, n, l, r), "additionalResources") == Some(r)
  {
  }

  lemma FallbackSections()
    ensures Field(Fallback(), "aiCapabilityEnhancementTechnologies") == Some(FallbackCapabilities())
    ensures Field(Fallback(), "aiResearchInIndia") == Some(FallbackIndia())
    ensures Field(Fallback(), "internshipOpportunities") == Some(FallbackInternships())
    ensures Field(Fallback(), "learningPaths") == Some(FallbackLearningPaths())
    ensures Field(Fallback(), "additionalResources") == Some(FallbackResources())
  {
    DocumentSections(FallbackCapabilities(), FallbackIndia(), FallbackInternships(), FallbackLearningPaths(), FallbackResources());
  }

  lemma FallbackLearningPathsFields()
    ensures var v := FallbackLearningPaths();
            StrField(v, "description") == Some(LearningPathsText) &&
            Field(v, "aiCapabilitiesPath") == Some(EmptyPath(CapabilitiesPathTitle)) &&
            Field(v, "cuttingEdgeAIPath") == Some(EmptyPath(CuttingEdgePathTitle)) &&
            Field(v, "brainCognitionPath") == Some(EmptyPath(BrainCognitionPathTitle)) &&
            Field(v, "mergedAINeurosciencePath") == Some(EmptyPath(NeurosciencePathTitle))
  {
    LearningPathsFields(LearningPathsText, CapabilitiesPathTitle, CuttingEdgePathTitle,
                        BrainCognitionPathTitle, NeurosciencePathTitle);
  }

  // Against the declared schema

  lemma PlaceholderCategoryDecodes(title: string)
    ensures DecodeCategoryTechnologies(PlaceholderCategory(title)) == Some(CategoryTechnologies(title, Placeholder, []))
  {
  }

  lemma EmptyInstitutionsDecode(title: string)
    ensures DecodeInstitutionGroup(EmptyInstitutions(title)) == Some(InstitutionGroup(title, []))
  {
  }

  lemma EmptyTitledListDecodes(title: string, listKey: string)
    requires listKey != "title"
    ensures DecodeTitledList(EmptyTitledList(title, listKey), listKey) == Some(TitledList(title, []))
  {
  }

  lemma SingleTermDecodes(term: string)
    ensures DecodeAll([Str(term)], DecodeString) == Some([term])
  {
    var terms := [Str(term)];
    assert terms[1..] == [];
    assert DecodeAll(terms[1..], DecodeString) == Some([]);
    assert [term] + [] == [term];
  }

  lemma CapabilitiesFields(description: string, term: string, memory: string, agentic: string, other: string)
    ensures var v := CapabilitiesSection(description, term, memory, agentic, other);
            StrField(v, "description") == Some(description) &&
            ListField(v, "collectiveTerms") == Some([Str(term)]) &&
            Field(v, "categories").Some? &&
            Field(Field(v, "categories").value, "memoryAndInformationRetrieval") == Some(PlaceholderCategory(memory)) &&
            Field(Field(v, "categories").value, "agenticCapabilities") == Some(PlaceholderCategory(agentic)) &&
            Field(Field(v, "categories").value, "otherAdvancedCapabilities") == Some(PlaceholderCategory(other))
  {
  }

  lemma IndiaFields(description: string, government: string, academic: string, partnerships: string, industry: string)
    ensures var v := IndiaSection(description, government, academic, partnerships, industry);
            StrField(v, "description") == Some(description) &&
            Field(v, "categories").Some? &&
            Field(Field(v, "categories").value, "governmentInstitutions") == Some(EmptyInstitutions(government)) &&
            Field(Field(v, "categories").value, "academicInstitutions") == Some(EmptyInstitutions(academic)) &&
            Field(Field(v, "categories").value, "publicPrivatePartnerships") == Some(EmptyInstitutions(partnerships)) &&
            Field(Field(v, "categories").value, "industryLedResearchCenters") == Some(EmptyInstitutions(industry))
  {
  }

  lemma InternshipsFields(description: string)
    ensures StrField(InternshipsSection(description), "description") == Some(description)
    ensures Field(InternshipsSection(description), "applicationStrategy") == Some(TipsStrategies())
  {
  }

  lemma LearningPathsFields(description: string, capabilities: string, cuttingEdge: string,
                            brainCognition: string, merged: string)
    ensures var v := LearningPathsSection(description, capabilities, cuttingEdge, brainCognition, merged);
            StrField(v, "description") == Some(description) &&
            Field(v, "aiCapabilitiesPath") == Some(EmptyPath(capabilities)) &&
            Field(v, "cuttingEdgeAIPath") == Some(EmptyPath(cuttingEdge)) &&
            Field(v, "brainCognitionPath") == Some(EmptyPath(brainCognition)) &&
            Field(v, "mergedAINeurosciencePath") == Some(EmptyPath(merged))
  {
  }

  lemma EmptyPathPhases(title: string)
    ensures ListField(EmptyPath(title), "phases") == Some([])
  {
  }

  /** A capabilities section of this shape matches its declared shape:
      placeholder categories with no technologies and a single collective
      term. */
  lemma CapabilitiesConform(description: string, term: string, memory: string, agentic: string, other: string)
    ensures DecodeCapabilities(CapabilitiesSection(description, term, memory, agentic, other))
         == Some(AICapabilityEnhancementTechnologies(
              description, [term],
              CategoryTechnologies(memory, Placeholder, []),
              CategoryTechnologies(agentic, Placeholder, []),
              CategoryTechnologies(other, Placeholder, [])))
  {
    CapabilitiesFields(description, term, memory, agentic, other);
    SingleTermDecodes(term);
    PlaceholderCategoryDecodes(memory);
    PlaceholderCategoryDecodes(agentic);
    PlaceholderCategoryDecodes(other);
  }

  lemma IndiaConforms(description: string, government: string, academic: string, partnerships: string, industry: string)
    ensures DecodeIndia(IndiaSection(description, government, academic, partnerships, industry))
         == Some(AIResearchInIndia(
              description,
              InstitutionGroup(government, []),
              InstitutionGroup(academic, []),
              InstitutionGroup(partnerships, []),
              InstitutionGroup(industry, [])))
  {
    IndiaFields(description, government, academic, partnerships, industry);
    EmptyInstitutionsDecode(government);
    EmptyInstitutionsDecode(academic);
    EmptyInstitutionsDecode(partnerships);
    EmptyInstitutionsDecode(industry);
  }

  lemma ResourcesFields(description: string, courses: string, books: string, rag: string,
                        chainOfThought: string, queries: string)
    ensures var v := ResourcesSection(description, courses, books, rag, chainOfThought, queries);
            StrField(v, "description") == Some(description) &&
            Field(v, "academicCourses") == Some(EmptyTitledList(courses, "courses")) &&
            Field(v, "bookRecommendations") == Some(EmptyTitledList(books, "books")) &&
            Field(v, "ragResources") == Some(EmptyTitledList(rag, "details")) &&
            Field(v, "chainOfThoughtGuide") == Some(EmptyTitledList(chainOfThought, "details")) &&
            Field(v, "searchQueries") == Some(EmptyTitledList(queries, "queries"))
  {
  }

  lemma ResourcesConform(description: string, courses: string, books: string, rag: string,
                         chainOfThought: string, queries: string)
    ensures DecodeResources(ResourcesSection(description, courses, books, rag, chainOfThought, queries))
         == Some(AdditionalResources(
              description,
              TitledList(courses, []),
              TitledList(books, []),
              TitledList(rag, []),
              TitledList(chainOfThought, []),
              TitledList(queries, [])))
  {
    ResourcesFields(description, courses, books, rag, chainOfThought, queries);
    EmptyTitledListDecodes(courses, "courses");
    EmptyTitledListDecodes(books, "books");
    EmptyTitledListDecodes(rag, "details");
    EmptyTitledListDecodes(chainOfThought, "details");
    EmptyTitledListDecodes(queries, "queries");
  }

  /** The fallback's capabilities, India and resources sections decode to
      their texts with empty lists. */
  lemma FallbackSectionsConform()
    ensures DecodeCapabilities(FallbackCapabilities()) == Some(AICapabilityEnhancementTechnologies(
              CapabilitiesText, [CollectiveTerm],
              CategoryTechnologies(MemoryTitle, Placeholder, []),
              CategoryTechnologies(AgenticTitle, Placeholder, []),
              CategoryTechnologies(OtherTitle, Placeholder, [])))
    ensures DecodeIndia(FallbackIndia()) == Some(AIResearchInIndia(
              IndiaText,
              InstitutionGroup(GovernmentTitle, []),
              InstitutionGroup(AcademicTitle, []),
              InstitutionGroup(PartnershipsTitle, []),
              InstitutionGroup(IndustryTitle, [])))
    ensures DecodeResources(FallbackResources()) == Some(AdditionalResources(
              ResourcesText,
              TitledList(CoursesTitle, []),
              TitledList(BooksTitle, []),
              TitledList(RagTitle, []),
              TitledList(ChainOfThoughtTitle, []),
              TitledList(QueriesTitle, [])))
  {
    CapabilitiesConform(CapabilitiesText, CollectiveTerm, MemoryTitle, AgenticTitle, OtherTitle);
    IndiaConforms(IndiaText, GovernmentTitle, AcademicTitle, PartnershipsTitle, IndustryTitle);
    ResourcesConform(ResourcesText, CoursesTitle, BooksTitle, RagTitle, ChainOfThoughtTitle, QueriesTitle);
  }

  /** The internship section does not match its declared shape: each
      application strategy has `tips` where `title` and `components` are
      declared, the background section has `backgrounds` where `title`,
      `subtitle` and `points` are declared, the student tips have `tips` where
      `title`, `categories` and `note` are declared, and the action plan has no
      `title`. */
  lemma InternshipsDoNotConform(description: string)
    ensures DecodeApplicationStrategy(NoTips()).None?
    ensures DecodeApplicationStrategies(TipsStrategies()).None?
    ensures DecodeActionPlan(Obj(map["months" := Arr([])])).None?
    ensures DecodeBackgroundLeveraging(Obj(map["backgrounds" := Arr([])])).None?
    ensures DecodeCSEStudentTips(NoTips()).None?
    ensures DecodeInternships(InternshipsSection(description)).None?
  {
    assert Field(TipsStrategies(), "resumeCV") == Some(NoTips());
    InternshipsFields(description);
  }

  /** The learning paths do not match their declared shape either: the three
      paths whose interfaces require a `description` have none. The first
      path, whose interface has no description, matches. */
  lemma LearningPathsDoNotConform(description: string, capabilities: string, cuttingEdge: string,
                                  brainCognition: string, merged: string)
    ensures forall t :: DecodeDescribedPath(EmptyPath(t)).None?
    ensures forall t :: DecodeAICapabilitiesPath(EmptyPath(t)) == Some(AICapabilitiesPath(t, []))
    ensures DecodeLearningPaths(LearningPathsSection(description, capabilities, cuttingEdge, brainCognition, merged)).None?
  {
  }

  /** A document whose internship section has this shape is not a
      well-shaped database, so neither is the fallback. */
  lemma DocumentDoesNotConform(c: Value, i: Value, description: string, l: Value, r: Value)
    ensures DecodeDatabase(Document(c, i, InternshipsSection(description), l, r)).None?
  {
    DocumentSections(c, i, InternshipsSection(description), l, r);
    InternshipsDoNotConform(description);
  }

  lemma FallbackDoesNotConform()
    ensures DecodeDatabase(Fallback()).None?
    ensures DecodeInternships(FallbackInternships()).None?
    ensures DecodeLearningPaths(FallbackLearningPaths()).None?
  {
    DocumentDoesNotConform(FallbackCapabilities(), FallbackIndia(), InternshipsText, FallbackLearningPaths(), FallbackResources());
    InternshipsDoNotConform(InternshipsText);
    LearningPathsDoNotConform(LearningPathsText, CapabilitiesPathTitle, CuttingEdgePathTitle,
                              BrainCognitionPathTitle, NeurosciencePathTitle);
  }

  // Against the pages' reads

  /** The capabilities page reads one collective term and three empty
      technology lists. */
  lemma CapabilitiesSectionReads(doc: Value, description: string, term: string, memory: string, agentic: string, other: string)
    requires Field(doc, "aiCapabilityEnhancementTechnologies") == Some(CapabilitiesSection(description, term, memory, agentic, other))
    ensures ListAt(doc, CapabilitiesReads()[0]) == Ok([Str(term)])
    ensures forall i :: 1 <= i < |CapabilitiesReads()| ==> ListAt(doc, CapabilitiesReads()[i]) == Ok([])
    ensures ReadsOk(doc, CapabilitiesReads())
  {
    var k, ps := "aiCapabilityEnhancementTechnologies", CapabilitiesReads();
    forall i | 0 <= i < |ps|
      ensures ListAt(doc, ps[i]) == if i == 0 then Ok([Str(term)]) else Ok([])
    {
      if i == 0 {
        ListAt2(doc, k, "collectiveTerms");
      } else if i == 1 {
        ListAt4(doc, k, "categories", "memoryAndInformationRetrieval", "technologies");
      } else if i == 2 {
        ListAt4(doc, k, "categories", "agenticCapabilities", "technologies");
      } else {
        ListAt4(doc, k, "categories", "otherAdvancedCapabilities", "technologies");
      }
    }
  }

  lemma IndiaSectionReads(doc: Value, description: string, government: string, academic: string,
                          partnerships: string, industry: string)
    requires Field(doc, "aiResearchInIndia") == Some(IndiaSection(description, government, academic, partnerships, industry))
    ensures forall i :: 0 <= i < |IndiaResearchReads()| ==> ListAt(doc, IndiaResearchReads()[i]) == Ok([])
    ensures ReadsOk(doc, IndiaResearchReads())
  {
    var k, ps := "aiResearchInIndia", IndiaResearchReads();
    forall i | 0 <= i < |ps| ensures ListAt(doc, ps[i]) == Ok([]) {
      if i == 0 {
        ListAt4(doc, k, "categories", "governmentInstitutions", "institutions");
      } else if i == 1 {
        ListAt4(doc, k, "categories", "academicInstitutions", "institutions");
      } else if i == 2 {
        ListAt4(doc, k, "categories", "publicPrivatePartnerships", "institutions");
      } else {
        ListAt4(doc, k, "categories", "industryLedResearchCenters", "institutions");
      }
    }
  }

  lemma LearningPathsSectionReads(doc: Value, description: string, capabilities: string, cuttingEdge: string,
                                  brainCognition: string, merged: string)
    requires Field(doc, "learningPaths")
          == Some(LearningPathsSection(description, capabilities, cuttingEdge, brainCognition, merged))
    ensures forall i :: 0 <= i < |LearningPathsReads()| ==> ListAt(doc, LearningPathsReads()[i]) == Ok([])
    ensures ReadsOk(doc, LearningPathsReads())
  {
    var k, ps := "learningPaths", LearningPathsReads();
    forall i | 0 <= i < |ps| ensures ListAt(doc, ps[i]) == Ok([]) {
      if i == 0 {
        ListAt3(doc, k, "aiCapabilitiesPath", "phases");
      } else if i == 1 {
        ListAt3(doc, k, "cuttingEdgeAIPath", "phases");
      } else if i == 2 {
        ListAt3(doc, k, "brainCognitionPath", "phases");
      } else {
        ListAt3(doc, k, "mergedAINeurosciencePath", "phases");
      }
    }
  }

  lemma ResourcesSectionReads(doc: Value, description: string, courses: string, books: string, rag: string,
                              chainOfThought: string, queries: string)
    requires Field(doc, "additionalResources")
          == Some(ResourcesSection(description, courses, books, rag, chainOfThought, queries))
    ensures forall i :: 0 <= i < |ResourcesReads()| ==> ListAt(doc, ResourcesReads()[i]) == Ok([])
    ensures ReadsOk(doc, ResourcesReads())
  {
    var k, ps := "additionalResources", ResourcesReads();
    forall i | 0 <= i < |ps| ensures ListAt(doc, ps[i]) == Ok([]) {
      if i == 0 {
        ListAt3(doc, k, "academicCourses", "courses");
      } else if i == 1 {
        ListAt3(doc, k, "bookRecommendations", "books");
      } else if i == 2 {
        ListAt3(doc, k, "ragResources", "details");
      } else if i == 3 {
        ListAt3(doc, k, "chainOfThoughtGuide", "details");
      } else {
        ListAt3(doc, k, "searchQueries", "queries");
      }
    }
  }

  /** Of the Internships page's seven list reads only the application tips
      and the months succeed; the three strategy `components`, the student
      tip `categories` and the background `points` throw. */
  lemma InternshipsSectionReads(doc: Value, description: string)
    requires Field(doc, "internshipOpportunities") == Some(InternshipsSection(description))
    ensures forall i :: 0 <= i < |InternshipsReads()| ==>
              ListAt(doc, InternshipsReads()[i]) == if i == 0 || i == 4 then Ok([]) else TypeError
  {
    var k, ps := "internshipOpportunities", InternshipsReads();
    forall i | 0 <= i < |ps| ensures ListAt(doc, ps[i]) == if i == 0 || i == 4 then Ok([]) else TypeError {
      if i == 0 {
        ListAt2(doc, k, "applicationTips");
      } else if i == 1 {
        MissingAt4(doc, k, "applicationStrategy", "resumeCV", "components");
      } else if i == 2 {
        MissingAt4(doc, k, "applicationStrategy", "coverLetter", "components");
      } else if i == 3 {
        MissingAt4(doc, k, "applicationStrategy", "directOutreach", "components");
      } else if i == 4 {
        ListAt3(doc, k, "actionPlan", "months");
      } else if i == 5 {
        MissingAt3(doc, k, "cseStudentTips", "categories");
      } else {
        MissingAt3(doc, k, "backgroundLeveraging", "points");
      }
    }
  }

  /** Where the declared lists went: every strategy and the student tips
      carry an empty `tips` list, the background section an empty
      `backgrounds` list. */
  lemma InternshipsSectionSubstitutes(doc: Value, description: string)
    requires Field(doc, "internshipOpportunities") == Some(InternshipsSection(description))
    ensures forall s :: s in {"resumeCV", "coverLetter", "directOutreach", "institutionGuidelines", "portfolioMaterials"} ==>
              ListAt(doc, ["internshipOpportunities", "applicationStrategy", s, "tips"]) == Ok([])
    ensures ListAt(doc, ["internshipOpportunities", "cseStudentTips", "tips"]) == Ok([])
    ensures ListAt(doc, ["internshipOpportunities", "backgroundLeveraging", "backgrounds"]) == Ok([])
  {
    var k := "internshipOpportunities";
    forall s | s in {"resumeCV", "coverLetter", "directOutreach", "institutionGuidelines", "portfolioMaterials"}
      ensures ListAt(doc, [k, "applicationStrategy", s, "tips"]) == Ok([])
    {
      ListAt4(doc, k, "applicationStrategy", s, "tips");
    }
    ListAt3(doc, k, "cseStudentTips", "tips");
    ListAt3(doc, k, "backgroundLeveraging", "backgrounds");
  }

  /** On the fallback every list the capabilities page reads is empty except
      the single collective term. */
  lemma FallbackCapabilitiesReads()
    ensures ReadsOk(Fallback(), CapabilitiesReads())
    ensures ListAt(Fallback(), CapabilitiesReads()[0]) == Ok([Str(CollectiveTerm)])
    ensures forall i :: 1 <= i < |CapabilitiesReads()| ==> ListAt(Fallback(), CapabilitiesReads()[i]) == Ok([])
  {
    FallbackSections();
    CapabilitiesSectionReads(Fallback(), CapabilitiesText, CollectiveTerm, MemoryTitle, AgenticTitle, OtherTitle);
  }

  /** Every list the India research, learning paths and resources pages
      read is empty on the fallback. */
  lemma FallbackIndiaResearchReads()
    ensures forall i :: 0 <= i < |IndiaResearchReads()| ==> ListAt(Fallback(), IndiaResearchReads()[i]) == Ok([])
    ensures ReadsOk(Fallback(), IndiaResearchReads())
  {
    FallbackSections();
    IndiaSectionReads(Fallback(), IndiaText, GovernmentTitle, AcademicTitle, PartnershipsTitle, IndustryTitle);
  }

  lemma FallbackLearningPathsReads()
    ensures forall i :: 0 <= i < |LearningPathsReads()| ==> ListAt(Fallback(), LearningPathsReads()[i]) == Ok([])
    ensures ReadsOk(Fallback(), LearningPathsReads())
  {
    FallbackSections();
    LearningPathsSectionReads(Fallback(), LearningPathsText, CapabilitiesPathTitle, CuttingEdgePathTitle,
                              BrainCognitionPathTitle, NeurosciencePathTitle);
  }

  lemma FallbackResourcesReads()
    ensures forall i :: 0 <= i < |ResourcesReads()| ==> ListAt(Fallback(), ResourcesReads()[i]) == Ok([])
    ensures ReadsOk(Fallback(), ResourcesReads())
  {
    FallbackSections();
    ResourcesSectionReads(Fallback(), ResourcesText, CoursesTitle, BooksTitle, RagTitle, ChainOfThoughtTitle, QueriesTitle);
  }

  /** On the fallback the Internships page's reads of the application tips
      and the months succeed and the other five throw; the background
      `points`, rendered below the tabs on every render, make the page throw
      on its first render. */
  lemma FallbackInternshipsReads()
    ensures forall i :: 0 <= i < |InternshipsReads()| ==>
              ListAt(Fallback(), InternshipsReads()[i]) == if i == 0 || i == 4 then Ok([]) else TypeError
    ensures !ReadsOk(Fallback(), InternshipsReads())
    ensures !ReadsOk(Fallback(), InternshipsFirstRenderReads())
  {
    FallbackSections();
    InternshipsSectionReads(Fallback(), InternshipsText);
    assert InternshipsFirstRenderReads()[1] == InternshipsReads()[6];
  }

  lemma FallbackInternshipsSubstitutes()
    ensures forall s :: s in {"resumeCV", "coverLetter", "directOutreach", "institutionGuidelines", "portfolioMaterials"} ==>
              ListAt(Fallback(), ["internshipOpportunities", "applicationStrategy", s, "tips"]) == Ok([])
    ensures ListAt(Fallback(), ["internshipOpportunities", "cseStudentTips", "tips"]) == Ok([])
    ensures ListAt(Fallback(), ["internshipOpportunities", "backgroundLeveraging", "backgrounds"]) == Ok([])
  {
    FallbackSections();
    InternshipsSectionSubstitutes(Fallback(), InternshipsText);
  }
}
