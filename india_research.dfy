/** The institution filter of the India research page: the five category
    buttons and the tagged institution list shown for the active one. */
module IndiaResearchPage {
  import opened Js
  import opened Schema

  /** One button of the category filter. */
  datatype CategoryOption = CategoryOption(id: string, name: string)

  /** The filter starts on 'all'. */
  const InitialActiveCategory := "all"

  /** The four tags the page attaches to institutions. */
  const InstitutionTypes: set<string> := {"government", "academic", "partnership", "industry"}

  /** `categoryOptions`, in this order. */
  function CategoryOptions(r: AIResearchInIndia): (opts: seq<CategoryOption>)
    ensures |opts| == 5
    ensures [opts[0].id, opts[1].id, opts[2].id, opts[3].id, opts[4].id]
         == ["all", "government", "academic", "public-private", "industry"]
    ensures opts[0].name == "All Institutions"
    ensures forall k :: 1 <= k < 5 ==> opts[k].name == Group(r, opts[k].id).title
  {
    [ CategoryOption("all", "All Institutions"),
      CategoryOption("government", r.governmentInstitutions.title),
      CategoryOption("academic", r.academicInstitutions.title),
      CategoryOption("public-private", r.publicPrivatePartnerships.title),
      CategoryOption("industry", r.industryLedResearchCenters.title) ]
  }

  /** The group a filter id names. */
  function Group(r: AIResearchInIndia, id: string): InstitutionGroup
    requires id in {"government", "academic", "public-private", "industry"}
  {
    match id
    case "government" => r.governmentInstitutions
    case "academic" => r.academicInstitutions
    case "public-private" => r.publicPrivatePartnerships
    case _ => r.industryLedResearchCenters
  }

  /** `insts.map(inst => ({ ...inst, type: tag }))`: every record keeps its
      place and all its fields but `type`, which becomes the tag. */
  function Tag(insts: seq<Record>, tag: string): (out: seq<Record>)
    ensures |out| == |insts|
    ensures forall k :: 0 <= k < |out| ==> out[k] == insts[k]["type" := Str(tag)]
  {
    if insts == [] then [] else [insts[0]["type" := Str(tag)]] + Tag(insts[1..], tag)
  }

  /** `getFilteredInstitutions`. The 'public-private' button tags its
      institutions 'partnership'. */
  function GetFilteredInstitutions(r: AIResearchInIndia, active: string): (out: seq<Record>)
    ensures active in {"government", "academic", "public-private", "industry"} ==>
              |out| == |Group(r, active).institutions|
    ensures active !in {"government", "academic", "public-private", "industry"} ==>
              |out| == |r.governmentInstitutions.institutions| + |r.academicInstitutions.institutions|
                       + |r.publicPrivatePartnerships.institutions| + |r.industryLedResearchCenters.institutions|
  {
    match active
    case "government" => Tag(r.governmentInstitutions.institutions, "government")
    case "academic" => Tag(r.academicInstitutions.institutions, "academic")
    case "public-private" => Tag(r.publicPrivatePartnerships.institutions, "partnership")
    case "industry" => Tag(r.industryLedResearchCenters.institutions, "industry")
    case _ =>
      Tag(r.governmentInstitutions.institutions, "government")
      + Tag(r.academicInstitutions.institutions, "academic")
      + Tag(r.publicPrivatePartnerships.institutions, "partnership")
      + Tag(r.industryLedResearchCenters.institutions, "industry")
  }

  /** The tag the page gives the institutions of a group. */
  function TagOf(id: string): (t: string)
    ensures id in {"government", "academic", "public-private", "industry"} ==> t in InstitutionTypes
    ensures id != "public-private" ==> t == id
  {
    if id == "public-private" then "partnership" else id
  }

  /** Tagging changes only the `type` field: all other fields of each record
      are kept, and the tag is readable back. */
  lemma TagKeepsOtherFields(insts: seq<Record>, tag: string)
    ensures forall k :: 0 <= k < |insts| ==> Tag(insts, tag)[k]["type"] == Str(tag)
    ensures forall k, key :: 0 <= k < |insts| && key != "type" && key in insts[k] ==>
              key in Tag(insts, tag)[k] && Tag(insts, tag)[k][key] == insts[k][key]
    ensures forall k :: 0 <= k < |insts| ==> Tag(insts, tag)[k].Keys == insts[k].Keys + {"type"}
  {
  }

  /** A single group yields its own institutions, in order and one for one,
      each tagged with the group's tag ('partnership' for 'public-private'). */
  lemma SingleGroup(r: AIResearchInIndia, id: string)
    requires id in {"government", "academic", "public-private", "industry"}
    ensures GetFilteredInstitutions(r, id) == Tag(Group(r, id).institutions, TagOf(id))
    ensures |GetFilteredInstitutions(r, id)| == |Group(r, id).institutions|
    ensures TagOf(id) in InstitutionTypes
  {
  }

  /** 'all' and every id the switch does not know yield the four tagged
      groups concatenated in the order government, academic, partnership,
      industry. */
  lemma AllGroups(r: AIResearchInIndia, active: string)
    requires active !in {"government", "academic", "public-private", "industry"}
    ensures GetFilteredInstitutions(r, active)
         == GetFilteredInstitutions(r, "government") + GetFilteredInstitutions(r, "academic")
            + GetFilteredInstitutions(r, "public-private") + GetFilteredInstitutions(r, "industry")
    ensures |GetFilteredInstitutions(r, active)|
         == |r.governmentInstitutions.institutions| + |r.academicInstitutions.institutions|
            + |r.publicPrivatePartnerships.institutions| + |r.industryLedResearchCenters.institutions|
  {
  }

  /** Every tagged list holds only the tag it was given. */
  lemma {:induction false} TagTypes(insts: seq<Record>, tag: string)
    ensures forall x: Record :: x in Tag(insts, tag) ==> "type" in x && x["type"] == Str(tag)
  {
    if insts != [] {
      TagTypes(insts[1..], tag);
    }
  }

  /** Whatever the active id, every institution shown carries one of the
      four types. */
  lemma ProducedTypes(r: AIResearchInIndia, active: string)
    ensures forall x: Record :: x in GetFilteredInstitutions(r, active) ==>
              "type" in x && x["type"].Str? && x["type"].s in InstitutionTypes
  {
    TagTypes(r.governmentInstitutions.institutions, "government");
    TagTypes(r.academicInstitutions.institutions, "academic");
    TagTypes(r.publicPrivatePartnerships.institutions, "partnership");
    TagTypes(r.industryLedResearchCenters.institutions, "industry");
  }

  /** Each non-'all' button shows exactly its own group, and the initial
      filter shows all of them. */
  lemma OptionsMatchSwitch(r: AIResearchInIndia)
    ensures forall k :: 1 <= k < |CategoryOptions(r)| ==>
              GetFilteredInstitutions(r, CategoryOptions(r)[k].id)
              == Tag(Group(r, CategoryOptions(r)[k].id).institutions, TagOf(CategoryOptions(r)[k].id))
    ensures CategoryOptions(r)[0].id == InitialActiveCategory
  {
    var opts := CategoryOptions(r);
    forall k | 1 <= k < |opts|
      ensures GetFilteredInstitutions(r, opts[k].id) == Tag(Group(r, opts[k].id).institutions, TagOf(opts[k].id))
    {
      SingleGroup(r, opts[k].id);
    }
  }
}
