/** The category selector of the AI capabilities page: the list of category
    buttons, the technologies shown for the active category and the
    description shown above them. */
module AICapabilitiesPage {
  import opened Js
  import opened Schema

  /** One button of the category selector; the 'all' entry has no
      description. */
  datatype CategoryOption = CategoryOption(id: string, title: string, description: Option<string>)

  /** The selector starts on 'all'. */
  const InitialActiveCategory := "all"

  const CategoryIds: set<string> := {"memory", "agentic", "other"}

  /** `allCategories`: 'all' followed by the three categories, each with its
      own title and description. */
  function AllCategories(c: AICapabilityEnhancementTechnologies): (r: seq<CategoryOption>)
    ensures |r| == 4
    ensures r[0] == CategoryOption("all", "All Technologies", None)
    ensures r[1].id == "memory" && r[2].id == "agentic" && r[3].id == "other"
    ensures forall k :: 1 <= k < 4 ==>
              r[k].title == Category(c, r[k].id).title && r[k].description == Some(Category(c, r[k].id).description)
  {
    [ CategoryOption("all", "All Technologies", None),
      CategoryOption("memory", c.memoryAndInformationRetrieval.title, Some(c.memoryAndInformationRetrieval.description)),
      CategoryOption("agentic", c.agenticCapabilities.title, Some(c.agenticCapabilities.description)),
      CategoryOption("other", c.otherAdvancedCapabilities.title, Some(c.otherAdvancedCapabilities.description)) ]
  }

  /** The category a selector id names. */
  function Category(c: AICapabilityEnhancementTechnologies, id: string): (r: CategoryTechnologies)
    requires id in CategoryIds
    ensures id == "memory" ==> r == c.memoryAndInformationRetrieval
    ensures id == "agentic" ==> r == c.agenticCapabilities
    ensures id == "other" ==> r == c.otherAdvancedCapabilities
  {
    if id == "memory" then c.memoryAndInformationRetrieval
    else if id == "agentic" then c.agenticCapabilities
    else c.otherAdvancedCapabilities
  }

  /** `getTechnologies`: one category's list, or all three concatenated for
      'all' and any id the switch does not know. */
  function GetTechnologies(c: AICapabilityEnhancementTechnologies, active: string): (r: seq<Technology>)
    ensures forall t :: t in r ==>
              t in c.memoryAndInformationRetrieval.technologies || t in c.agenticCapabilities.technologies
              || t in c.otherAdvancedCapabilities.technologies
    ensures |r| <= |c.memoryAndInformationRetrieval.technologies| + |c.agenticCapabilities.technologies|
                   + |c.otherAdvancedCapabilities.technologies|
  {
    match active
    case "memory" => c.memoryAndInformationRetrieval.technologies
    case "agentic" => c.agenticCapabilities.technologies
    case "other" => c.otherAdvancedCapabilities.technologies
    case _ =>
      c.memoryAndInformationRetrieval.technologies
      + c.agenticCapabilities.technologies
      + c.otherAdvancedCapabilities.technologies
  }

  /** `Array.prototype.find` on the options: the first one with that id. */
  function Find(options: seq<CategoryOption>, id: string): (r: Option<nat>)
    ensures r.Some? ==> r.value < |options| && options[r.value].id == id &&
                        forall k :: 0 <= k < r.value ==> options[k].id != id
    ensures r.None? ==> forall k :: 0 <= k < |options| ==> options[k].id != id
  {
    if options == [] then None
    else if options[0].id == id then Some(0)
    else
      match Find(options[1..], id)
      case None => None
      case Some(k) => Some(k + 1)
  }

  /** `found?.description || description`. */
  function GetActiveDescription(c: AICapabilityEnhancementTechnologies, active: string): (r: string)
    ensures r in {c.description, c.memoryAndInformationRetrieval.description,
                  c.agenticCapabilities.description, c.otherAdvancedCapabilities.description}
    ensures r == "" ==> c.description == ""
  {
    var options := AllCategories(c);
    var found := Find(options, active);
    if found.Some? && options[found.value].description.Some? && options[found.value].description.value != ""
    then options[found.value].description.value
    else c.description
  }

  /** Each category id yields exactly that category's list; 'all' and any
      unknown id yield memory ++ agentic ++ other in that order. */
  lemma TechnologiesByCategory(c: AICapabilityEnhancementTechnologies, active: string)
    ensures active in CategoryIds ==> GetTechnologies(c, active) == Category(c, active).technologies
    ensures active !in CategoryIds ==>
              GetTechnologies(c, active) == Category(c, "memory").technologies
                                          + Category(c, "agentic").technologies
                                          + Category(c, "other").technologies
  {
  }

  /** The 'all' list is as long as the three lists together and holds every
      technology any single category shows. */
  lemma AllHoldsEveryCategory(c: AICapabilityEnhancementTechnologies, id: string)
    requires id in CategoryIds
    ensures |GetTechnologies(c, "all")| ==
              |GetTechnologies(c, "memory")| + |GetTechnologies(c, "agentic")| + |GetTechnologies(c, "other")|
    ensures forall t :: t in GetTechnologies(c, id) ==> t in GetTechnologies(c, "all")
  {
    var m, a, o := GetTechnologies(c, "memory"), GetTechnologies(c, "agentic"), GetTechnologies(c, "other");
    assert GetTechnologies(c, "all") == m + a + o;
  }

  /** The description shown: the top-level one for 'all' (whose entry has
      none) and for ids with no entry; otherwise the category's own, falling
      back to the top-level one when it is empty. */
  lemma ActiveDescription(c: AICapabilityEnhancementTechnologies, active: string)
    ensures active !in CategoryIds ==> GetActiveDescription(c, active) == c.description
    ensures active in CategoryIds ==>
              GetActiveDescription(c, active) ==
                if Category(c, active).description != "" then Category(c, active).description else c.description
  {
    var options := AllCategories(c);
    if active in CategoryIds {
      var k := if active == "memory" then 1 else if active == "agentic" then 2 else 3;
      assert options[k].id == active;
      assert Find(options, active) == Some(k);
    }
  }

  /** Every button the selector offers shows technologies: the 'all' button
      the concatenation and each other button its own category's list, so
      the selector's ids and the switch agree. */
  lemma OptionsMatchSwitch(c: AICapabilityEnhancementTechnologies)
    ensures forall k :: 1 <= k < |AllCategories(c)| ==>
              GetTechnologies(c, AllCategories(c)[k].id) == Category(c, AllCategories(c)[k].id).technologies
    ensures GetTechnologies(c, AllCategories(c)[0].id) == GetTechnologies(c, InitialActiveCategory)
  {
  }

  /** On first render the page shows every technology and the top-level
      description. */
  lemma InitialView(c: AICapabilityEnhancementTechnologies)
    ensures GetTechnologies(c, InitialActiveCategory)
         == c.memoryAndInformationRetrieval.technologies + c.agenticCapabilities.technologies
            + c.otherAdvancedCapabilities.technologies
    ensures GetActiveDescription(c, InitialActiveCategory) == c.description
  {
    ActiveDescription(c, InitialActiveCategory);
  }
}
