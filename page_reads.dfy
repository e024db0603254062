/** The lists each page of the site dereferences in the shared document:
    the paths it calls `.map` on or spreads. Reading a scalar such as a title
    never throws as long as its parent object exists, and every parent of a
    scalar a page reads is also the parent of one of these lists, so a page
    renders without a TypeError exactly when all of its list reads succeed.
    (Lists inside list elements are read only when the outer list is
    non-empty.) */
module PageReads {
  import opened Js
  import opened Schema

  /** src/pages/AICapabilities.tsx: the collective terms and the three
      technology lists. */
  function CapabilitiesReads(): seq<Path> {
    [ ["aiCapabilityEnhancementTechnologies", "collectiveTerms"],
      ["aiCapabilityEnhancementTechnologies", "categories", "memoryAndInformationRetrieval", "technologies"],
      ["aiCapabilityEnhancementTechnologies", "categories", "agenticCapabilities", "technologies"],
      ["aiCapabilityEnhancementTechnologies", "categories", "otherAdvancedCapabilities", "technologies"] ]
  }

  /** src/pages/IndiaResearch.tsx: the four institution lists. */
  function IndiaResearchReads(): seq<Path> {
    [ ["aiResearchInIndia", "categories", "governmentInstitutions", "institutions"],
      ["aiResearchInIndia", "categories", "academicInstitutions", "institutions"],
      ["aiResearchInIndia", "categories", "publicPrivatePartnerships", "institutions"],
      ["aiResearchInIndia", "categories", "industryLedResearchCenters", "institutions"] ]
  }

  /** src/pages/Internships.tsx, every tab. */
  function InternshipsReads(): seq<Path> {
    [ ["internshipOpportunities", "applicationTips"],
      ["internshipOpportunities", "applicationStrategy", "resumeCV", "components"],
      ["internshipOpportunities", "applicationStrategy", "coverLetter", "components"],
      ["internshipOpportunities", "applicationStrategy", "directOutreach", "components"],
      ["internshipOpportunities", "actionPlan", "months"],
      ["internshipOpportunities", "cseStudentTips", "categories"],
      ["internshipOpportunities", "backgroundLeveraging", "points"] ]
  }

  /** src/pages/Internships.tsx on its first render: the default tab
      ('application-tips') and the background section below the tabs. */
  function InternshipsFirstRenderReads(): seq<Path> {
    [ ["internshipOpportunities", "applicationTips"],
      ["internshipOpportunities", "backgroundLeveraging", "points"] ]
  }

  /** src/pages/LearningPaths.tsx: the four phase lists. */
  function LearningPathsReads(): seq<Path> {
    [ ["learningPaths", "aiCapabilitiesPath", "phases"],
      ["learningPaths", "cuttingEdgeAIPath", "phases"],
      ["learningPaths", "brainCognitionPath", "phases"],
      ["learningPaths", "mergedAINeurosciencePath", "phases"] ]
  }

  /** src/pages/Resources.tsx: one list per tab. */
  function ResourcesReads(): seq<Path> {
    [ ["additionalResources", "academicCourses", "courses"],
      ["additionalResources", "bookRecommendations", "books"],
      ["additionalResources", "ragResources", "details"],
      ["additionalResources", "chainOfThoughtGuide", "details"],
      ["additionalResources", "searchQueries", "queries"] ]
  }

  predicate ReadsOk(doc: Value, paths: seq<Path>) {
    forall i :: 0 <= i < |paths| ==> ListAt(doc, paths[i]).Ok?
  }

  /** Reading through a present field is reading from its value. */
  lemma PropPathThroughField(v: Value, path: Path)
    requires path != [] && Field(v, path[0]).Some?
    ensures PropPath(v, path) == PropPath(Field(v, path[0]).value, path[1..])
  {
  }

  lemma ListAtThroughField(v: Value, path: Path)
    requires path != [] && Field(v, path[0]).Some?
    ensures ListAt(v, path) == ListAt(Field(v, path[0]).value, path[1..])
  {
    PropPathThroughField(v, path);
  }

  lemma ListAtListField(v: Value, key: string)
    requires ListField(v, key).Some?
    ensures ListAt(v, [key]) == Ok(ListField(v, key).value)
  {
    PropPathThroughField(v, [key]);
    assert [key][1..] == [];
    assert PropPath(v, [key]) == Ok(Field(v, key).value);
  }

  /** Reading a key an object lacks, and calling `.map` on it, throws. */
  lemma ListAtMissing(v: Value, key: string)
    requires v.Obj? && key !in v.fields
    ensures ListAt(v, [key]) == TypeError
  {
    assert [key][1..] == [];
    assert PropPath(v, [key]) == Ok(Undefined);
  }

  lemma ListAt2(doc: Value, a: string, b: string)
    requires Field(doc, a).Some? && ListField(Field(doc, a).value, b).Some?
    ensures ListAt(doc, [a, b]) == Ok(ListField(Field(doc, a).value, b).value)
  {
    ListAtThroughField(doc, [a, b]);
    assert [a, b][1..] == [b];
    ListAtListField(Field(doc, a).value, b);
  }

  lemma ListAt3(doc: Value, a: string, b: string, c: string)
    requires Field(doc, a).Some? && Field(Field(doc, a).value, b).Some?
    requires ListField(Field(Field(doc, a).value, b).value, c).Some?
    ensures ListAt(doc, [a, b, c]) == Ok(ListField(Field(Field(doc, a).value, b).value, c).value)
  {
    ListAtThroughField(doc, [a, b, c]);
    assert [a, b, c][1..] == [b, c];
    ListAt2(Field(doc, a).value, b, c);
  }

  lemma ListAt4(doc: Value, a: string, b: string, c: string, d: string)
    requires Field(doc, a).Some? && Field(Field(doc, a).value, b).Some?
    requires Field(Field(Field(doc, a).value, b).value, c).Some?
    requires ListField(Field(Field(Field(doc, a).value, b).value, c).value, d).Some?
    ensures ListAt(doc, [a, b, c, d])
         == Ok(ListField(Field(Field(Field(doc, a).value, b).value, c).value, d).value)
  {
    ListAtThroughField(doc, [a, b, c, d]);
    assert [a, b, c, d][1..] == [b, c, d];
    ListAt3(Field(doc, a).value, b, c, d);
  }

  lemma MissingAt3(doc: Value, a: string, b: string, c: string)
    requires Field(doc, a).Some? && Field(Field(doc, a).value, b).Some?
    requires Field(Field(doc, a).value, b).value.Obj? && c !in Field(Field(doc, a).value, b).value.fields
    ensures ListAt(doc, [a, b, c]) == TypeError
  {
    var x := Field(doc, a).value;
    ListAtThroughField(doc, [a, b, c]);
    assert [a, b, c][1..] == [b, c];
    ListAtThroughField(x, [b, c]);
    assert [b, c][1..] == [c];
    ListAtMissing(Field(x, b).value, c);
  }

  lemma MissingAt4(doc: Value, a: string, b: string, c: string, d: string)
    requires Field(doc, a).Some? && Field(Field(doc, a).value, b).Some?
    requires Field(Field(Field(doc, a).value, b).value, c).Some?
    requires Field(Field(Field(doc, a).value, b).value, c).value.Obj?
    requires d !in Field(Field(Field(doc, a).value, b).value, c).value.fields
    ensures ListAt(doc, [a, b, c, d]) == TypeError
  {
    ListAtThroughField(doc, [a, b, c, d]);
    assert [a, b, c, d][1..] == [b, c, d];
    MissingAt3(Field(doc, a).value, b, c, d);
  }

  lemma CapabilitiesSafe(doc: Value)
    requires Field(doc, "aiCapabilityEnhancementTechnologies").Some?
    requires DecodeCapabilities(Field(doc, "aiCapabilityEnhancementTechnologies").value).Some?
    ensures ReadsOk(doc, CapabilitiesReads())
  {
    var k, ps := "aiCapabilityEnhancementTechnologies", CapabilitiesReads();
    forall i | 0 <= i < |ps| ensures ListAt(doc, ps[i]).Ok? {
      if i == 0 {
        ListAt2(doc, k, "collectiveTerms");
      } else if i == 1 {
        ListAt4(doc, k, "categories", "memoryAndInformationRetrieval", "technologies");
      } else if i == 2 {
        ListAt4(doc, k, "categories", "agenticCapabilities", "technologies");
      } else {
        ListAt4(doc, k, "categories", "otherAdvancedCapabilities", "technologies");
      }
    }
  }

  lemma IndiaResearchSafe(doc: Value)
    requires Field(doc, "aiResearchInIndia").Some?
    requires DecodeIndia(Field(doc, "aiResearchInIndia").value).Some?
    ensures ReadsOk(doc, IndiaResearchReads())
  {
    var k, ps := "aiResearchInIndia", IndiaResearchReads();
    forall i | 0 <= i < |ps| ensures ListAt(doc, ps[i]).Ok? {
      if i == 0 {
        ListAt4(doc, k, "categories", "governmentInstitutions", "institutions");
      } else if i == 1 {
        ListAt4(doc, k, "categories", "academicInstitutions", "institutions");
      } else if i == 2 {
        ListAt4(doc, k, "categories", "publicPrivatePartnerships", "institutions");
      } else {
        ListAt4(doc, k, "categories", "industryLedResearchCenters", "institutions");
      }
    }
  }

  /** The lists the Internships page reads are present in `v`. */
  predicate HasInternshipLists(v: Value) {
    && ListField(v, "applicationTips").Some?
    && Field(v, "applicationStrategy").Some?
    && (forall s :: s in {"resumeCV", "coverLetter", "directOutreach"} ==>
          Field(Field(v, "applicationStrategy").value, s).Some? &&
          ListField(Field(Field(v, "applicationStrategy").value, s).value, "components").Some?)
    && Field(v, "actionPlan").Some? && ListField(Field(v, "actionPlan").value, "months").Some?
    && Field(v, "cseStudentTips").Some? && ListField(Field(v, "cseStudentTips").value, "categories").Some?
    && Field(v, "backgroundLeveraging").Some? && ListField(Field(v, "backgroundLeveraging").value, "points").Some?
  }

  lemma StrategiesLists(v: Value)
    requires DecodeApplicationStrategies(v).Some?
    ensures forall s :: s in {"resumeCV", "coverLetter", "directOutreach"} ==>
              Field(v, s).Some? && ListField(Field(v, s).value, "components").Some?
  {
  }

  /** A well-shaped internship section has them. */
  lemma InternshipsLists(v: Value)
    requires DecodeInternships(v).Some?
    ensures HasInternshipLists(v)
  {
    StrategiesLists(Field(v, "applicationStrategy").value);
  }

  lemma InternshipsSafe(doc: Value)
    requires Field(doc, "internshipOpportunities").Some?
    requires HasInternshipLists(Field(doc, "internshipOpportunities").value)
    ensures ReadsOk(doc, InternshipsReads())
  {
    var k, ps := "internshipOpportunities", InternshipsReads();
    forall i | 0 <= i < |ps| ensures ListAt(doc, ps[i]).Ok? {
      if i == 0 {
        ListAt2(doc, k, "applicationTips");
      } else if i == 1 {
        ListAt4(doc, k, "applicationStrategy", "resumeCV", "components");
      } else if i == 2 {
        ListAt4(doc, k, "applicationStrategy", "coverLetter", "components");
      } else if i == 3 {
        ListAt4(doc, k, "applicationStrategy", "directOutreach", "components");
      } else if i == 4 {
        ListAt3(doc, k, "actionPlan", "months");
      } else if i == 5 {
        ListAt3(doc, k, "cseStudentTips", "categories");
      } else {
        ListAt3(doc, k, "backgroundLeveraging", "points");
      }
    }
  }

  lemma LearningPathsSafe(doc: Value)
    requires Field(doc, "learningPaths").Some?
    requires DecodeLearningPaths(Field(doc, "learningPaths").value).Some?
    ensures ReadsOk(doc, LearningPathsReads())
  {
    var k, ps := "learningPaths", LearningPathsReads();
    forall i | 0 <= i < |ps| ensures ListAt(doc, ps[i]).Ok? {
      if i == 0 {
        ListAt3(doc, k, "aiCapabilitiesPath", "phases");
      } else if i == 1 {
        ListAt3(doc, k, "cuttingEdgeAIPath", "phases");
      } else if i == 2 {
        ListAt3(doc, k, "brainCognitionPath", "phases");
      } else {
        ListAt3(doc, k, "mergedAINeurosciencePath", "phases");
      }
    }
  }

  lemma ResourcesSafe(doc: Value)
    requires Field(doc, "additionalResources").Some?
    requires DecodeResources(Field(doc, "additionalResources").value).Some?
    ensures ReadsOk(doc, ResourcesReads())
  {
    var k, ps := "additionalResources", ResourcesReads();
    forall i | 0 <= i < |ps| ensures ListAt(doc, ps[i]).Ok? {
      if i == 0 {
        ListAt3(doc, k, "academicCourses", "courses");
      } else if i == 1 {
        ListAt3(doc, k, "bookRecommendations", "books");
      } else if i == 2 {
        ListAt3(doc, k, "ragResources", "details");
      } else if i == 3 {
        ListAt3(doc, k, "chainOfThoughtGuide", "details");
      } else {
        ListAt3(doc, k, "searchQueries", "queries");
      }
    }
  }

  /** A document that matches the declared schema renders every page
      without a TypeError. */
  lemma ConformingDocumentIsSafe(doc: Value)
    requires DecodeDatabase(doc).Some?
    ensures ReadsOk(doc, CapabilitiesReads())
    ensures ReadsOk(doc, IndiaResearchReads())
    ensures ReadsOk(doc, InternshipsReads())
    ensures ReadsOk(doc, LearningPathsReads())
    ensures ReadsOk(doc, ResourcesReads())
  {
    CapabilitiesSafe(doc);
    IndiaResearchSafe(doc);
    InternshipsLists(Field(doc, "internshipOpportunities").value);
    InternshipsSafe(doc);
    LearningPathsSafe(doc);
    ResourcesSafe(doc);
  }
}
