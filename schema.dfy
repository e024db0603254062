/** The declared shape of the research database (the interfaces of
    src/types/index.ts), as typed views and decoders from a parsed document.
    A decoder succeeds exactly when the value has every required field with its
    declared kind; extra fields are allowed, as with structural typing.
    Elements of lists are decoded where a page hands their fields on
    (technologies, collective terms, institutions) and kept as plain values
    otherwise. The interfaces CuttingEdgeAIPath, BrainCognitionPath and
    MergedAINeurosciencePath have the same fields and share DescribedPath. */
module Schema {
  import opened Js

  type Record = map<string, Value>

  datatype Technology = Technology(name: string, description: string)

  datatype CategoryTechnologies =
    CategoryTechnologies(title: string, description: string, technologies: seq<Technology>)

  datatype AICapabilityEnhancementTechnologies = AICapabilityEnhancementTechnologies(
    description: string,
    collectiveTerms: seq<string>,
    memoryAndInformationRetrieval: CategoryTechnologies,
    agenticCapabilities: CategoryTechnologies,
    otherAdvancedCapabilities: CategoryTechnologies)

  /** One category of institutions; each institution keeps all its fields. */
  datatype InstitutionGroup = InstitutionGroup(title: string, institutions: seq<Record>)

  datatype AIResearchInIndia = AIResearchInIndia(
    description: string,
    governmentInstitutions: InstitutionGroup,
    academicInstitutions: InstitutionGroup,
    publicPrivatePartnerships: InstitutionGroup,
    industryLedResearchCenters: InstitutionGroup)

  datatype ApplicationStrategy = ApplicationStrategy(title: string, components: seq<Value>)
  datatype ActionPlan = ActionPlan(title: string, months: seq<Value>)
  datatype BackgroundLeveraging =
    BackgroundLeveraging(title: string, subtitle: string, points: seq<Value>)
  datatype CSEStudentTips = CSEStudentTips(title: string, categories: seq<Value>, note: string)

  /** The inline object type of `applicationStrategy`. */
  datatype ApplicationStrategies = ApplicationStrategies(
    resumeCV: ApplicationStrategy,
    coverLetter: ApplicationStrategy,
    directOutreach: ApplicationStrategy,
    institutionGuidelines: ApplicationStrategy,
    portfolioMaterials: ApplicationStrategy)

  datatype InternshipOpportunities = InternshipOpportunities(
    description: string,
    applicationTips: seq<Value>,
    applicationStrategy: ApplicationStrategies,
    actionPlan: ActionPlan,
    backgroundLeveraging: BackgroundLeveraging,
    cseStudentTips: CSEStudentTips)

  datatype AICapabilitiesPath = AICapabilitiesPath(title: string, phases: seq<Value>)
  datatype DescribedPath = DescribedPath(title: string, description: string, phases: seq<Value>)

  datatype LearningPaths = LearningPaths(
    description: string,
    aiCapabilitiesPath: AICapabilitiesPath,
    cuttingEdgeAIPath: DescribedPath,
    brainCognitionPath: DescribedPath,
    mergedAINeurosciencePath: DescribedPath)

  /** A titled list; the list's key differs per resource (courses, books, details, queries). */
  datatype TitledList = TitledList(title: string, items: seq<Value>)

  datatype AdditionalResources = AdditionalResources(
    description: string,
    academicCourses: TitledList,
    bookRecommendations: TitledList,
    ragResources: TitledList,
    chainOfThoughtGuide: TitledList,
    searchQueries: TitledList)

  datatype AIResearchDatabase = AIResearchDatabase(
    aiCapabilityEnhancementTechnologies: AICapabilityEnhancementTechnologies,
    aiResearchInIndia: AIResearchInIndia,
    internshipOpportunities: InternshipOpportunities,
    learningPaths: LearningPaths,
    additionalResources: AdditionalResources)

  // Field access

  function Field(v: Value, key: string): (r: Option<Value>)
    ensures r.Some? <==> v.Obj? && key in v.fields
  {
    if v.Obj? && key in v.fields then Some(v.fields[key]) else None
  }

  function StrField(v: Value, key: string): (r: Option<string>)
    ensures r.Some? <==> Field(v, key).Some? && Field(v, key).value.Str?
  {
    var f :- Field(v, key);
    if f.Str? then Some(f.s) else None
  }

  function ListField(v: Value, key: string): (r: Option<seq<Value>>)
    ensures r.Some? <==> Field(v, key).Some? && Field(v, key).value.Arr?
    ensures r.Some? ==> Prop(v, key) == Ok(Arr(r.value))
  {
    var f :- Field(v, key);
    if f.Arr? then Some(f.items) else None
  }

  /** Decodes every element of a list, failing if any element fails. */
  function DecodeAll<T>(items: seq<Value>, decode: Value -> Option<T>): (r: Option<seq<T>>)
    ensures r.Some? <==> forall i :: 0 <= i < |items| ==> decode(items[i]).Some?
    ensures r.Some? ==> |r.value| == |items|
    ensures r.Some? ==> forall i :: 0 <= i < |items| ==> decode(items[i]) == Some(r.value[i])
  {
    if items == [] then Some([])
    else
      var head :- decode(items[0]);
      var tail :- DecodeAll(items[1..], decode);
      Some([head] + tail)
  }

  // Decoders, one per interface

  function DecodeString(v: Value): Option<string> {
    if v.Str? then Some(v.s) else None
  }

  function DecodeTechnology(v: Value): Option<Technology> {
    var name :- StrField(v, "name");
    var description :- StrField(v, "description");
    Some(Technology(name, description))
  }

  /** Every institution interface requires a string name and description. */
  function DecodeInstitution(v: Value): Option<Record> {
    var _ :- StrField(v, "name");
    var _ :- StrField(v, "description");
    Some(v.fields)
  }

  function DecodeCategoryTechnologies(v: Value): Option<CategoryTechnologies> {
    var title :- StrField(v, "title");
    var description :- StrField(v, "description");
    var items :- ListField(v, "technologies");
    var technologies :- DecodeAll(items, DecodeTechnology);
    Some(CategoryTechnologies(title, description, technologies))
  }

  function DecodeCapabilities(v: Value): Option<AICapabilityEnhancementTechnologies> {
    var description :- StrField(v, "description");
    var terms :- ListField(v, "collectiveTerms");
    var collectiveTerms :- DecodeAll(terms, DecodeString);
    var categories :- Field(v, "categories");
    var memory :- Field(categories, "memoryAndInformationRetrieval");
    var agentic :- Field(categories, "agenticCapabilities");
    var other :- Field(categories, "otherAdvancedCapabilities");
    var m :- DecodeCategoryTechnologies(memory);
    var a :- DecodeCategoryTechnologies(agentic);
    var o :- DecodeCategoryTechnologies(other);
    Some(AICapabilityEnhancementTechnologies(description, collectiveTerms, m, a, o))
  }

  function DecodeInstitutionGroup(v: Value): Option<InstitutionGroup> {
    var title :- StrField(v, "title");
    var items :- ListField(v, "institutions");
    var institutions :- DecodeAll(items, DecodeInstitution);
    Some(InstitutionGroup(title, institutions))
  }

  function DecodeIndia(v: Value): Option<AIResearchInIndia> {
    var description :- StrField(v, "description");
    var categories :- Field(v, "categories");
    var government :- Field(categories, "governmentInstitutions");
    var academic :- Field(categories, "academicInstitutions");
    var partnership :- Field(categories, "publicPrivatePartnerships");
    var industry :- Field(categories, "industryLedResearchCenters");
    var g :- DecodeInstitutionGroup(government);
    var a :- DecodeInstitutionGroup(academic);
    var p :- DecodeInstitutionGroup(partnership);
    var i :- DecodeInstitutionGroup(industry);
    Some(AIResearchInIndia(description, g, a, p, i))
  }

  function DecodeApplicationStrategy(v: Value): Option<ApplicationStrategy> {
    var title :- StrField(v, "title");
    var components :- ListField(v, "components");
    Some(ApplicationStrategy(title, components))
  }

  function DecodeActionPlan(v: Value): Option<ActionPlan> {
    var title :- StrField(v, "title");
    var months :- ListField(v, "months");
    Some(ActionPlan(title, months))
  }

  function DecodeBackgroundLeveraging(v: Value): Option<BackgroundLeveraging> {
    var title :- StrField(v, "title");
    var subtitle :- StrField(v, "subtitle");
    var points :- ListField(v, "points");
    Some(BackgroundLeveraging(title, subtitle, points))
  }

  function DecodeCSEStudentTips(v: Value): Option<CSEStudentTips> {
    var title :- StrField(v, "title");
    var categories :- ListField(v, "categories");
    var note :- StrField(v, "note");
    Some(CSEStudentTips(title, categories, note))
  }

  function DecodeApplicationStrategies(v: Value): Option<ApplicationStrategies> {
    var resume :- Field(v, "resumeCV");
    var cover :- Field(v, "coverLetter");
    var outreach :- Field(v, "directOutreach");
    var guidelines :- Field(v, "institutionGuidelines");
    var portfolio :- Field(v, "portfolioMaterials");
    var r :- DecodeApplicationStrategy(resume);
    var c :- DecodeApplicationStrategy(cover);
    var d :- DecodeApplicationStrategy(outreach);
    var g :- DecodeApplicationStrategy(guidelines);
    var p :- DecodeApplicationStrategy(portfolio);
    Some(ApplicationStrategies(r, c, d, g, p))
  }

  function DecodeInternships(v: Value): Option<InternshipOpportunities> {
    var description :- StrField(v, "description");
    var applicationTips :- ListField(v, "applicationTips");
    var strategy :- Field(v, "applicationStrategy");
    var s :- DecodeApplicationStrategies(strategy);
    var plan :- Field(v, "actionPlan");
    var a :- DecodeActionPlan(plan);
    var background :- Field(v, "backgroundLeveraging");
    var b :- DecodeBackgroundLeveraging(background);
    var tips :- Field(v, "cseStudentTips");
    var t :- DecodeCSEStudentTips(tips);
    Some(InternshipOpportunities(description, applicationTips, s, a, b, t))
  }

  function DecodeAICapabilitiesPath(v: Value): Option<AICapabilitiesPath> {
    var title :- StrField(v, "title");
    var phases :- ListField(v, "phases");
    Some(AICapabilitiesPath(title, phases))
  }

  function DecodeDescribedPath(v: Value): Option<DescribedPath> {
    var title :- StrField(v, "title");
    var description :- StrField(v, "description");
    var phases :- ListField(v, "phases");
    Some(DescribedPath(title, description, phases))
  }

  function DecodeLearningPaths(v: Value): Option<LearningPaths> {
    var description :- StrField(v, "description");
    var capabilities :- Field(v, "aiCapabilitiesPath");
    var cutting :- Field(v, "cuttingEdgeAIPath");
    var brain :- Field(v, "brainCognitionPath");
    var merged :- Field(v, "mergedAINeurosciencePath");
    var a :- DecodeAICapabilitiesPath(capabilities);
    var c :- DecodeDescribedPath(cutting);
    var b :- DecodeDescribedPath(brain);
    var m :- DecodeDescribedPath(merged);
    Some(LearningPaths(description, a, c, b, m))
  }

  function DecodeTitledList(v: Value, listKey: string): Option<TitledList> {
    var title :- StrField(v, "title");
    var items :- ListField(v, listKey);
    Some(TitledList(title, items))
  }

  function DecodeResources(v: Value): Option<AdditionalResources> {
    var description :- StrField(v, "description");
    var courses :- Field(v, "academicCourses");
    var books :- Field(v, "bookRecommendations");
    var rag :- Field(v, "ragResources");
    var cot :- Field(v, "chainOfThoughtGuide");
    var queries :- Field(v, "searchQueries");
    var c :- DecodeTitledList(courses, "courses");
    var b :- DecodeTitledList(books, "books");
    var r :- DecodeTitledList(rag, "details");
    var t :- DecodeTitledList(cot, "details");
    var q :- DecodeTitledList(queries, "queries");
    Some(AdditionalResources(description, c, b, r, t, q))
  }

  /** The whole document: all five sections present and well-shaped. */
  function DecodeDatabase(v: Value): Option<AIResearchDatabase> {
    var capabilities :- Field(v, "aiCapabilityEnhancementTechnologies");
    var india :- Field(v, "aiResearchInIndia");
    var internships :- Field(v, "internshipOpportunities");
    var paths :- Field(v, "learningPaths");
    var resources :- Field(v, "additionalResources");
    var c :- DecodeCapabilities(capabilities);
    var i :- DecodeIndia(india);
    var n :- DecodeInternships(internships);
    var l :- DecodeLearningPaths(paths);
    var r :- DecodeResources(resources);
    Some(AIResearchDatabase(c, i, n, l, r))
  }
}
