/** The institution card: a colour gradient and an icon chosen by the
    institution's type, and a click-to-expand details panel. */
module InstitutionCard {
  import opened Js
  import opened Schema
  import IndiaResearchPage

  const DefaultColor := "from-primary-600 to-primary-800"
  const DefaultIcon := "\U{1F52C}"

  /** `getTypeColor`. */
  function TypeColor(t: string): (c: string)
    ensures t in IndiaResearchPage.InstitutionTypes <==> c != DefaultColor
  {
    match t
    case "government" => "from-blue-600 to-blue-800"
    case "academic" => "from-purple-600 to-purple-800"
    case "industry" => "from-red-600 to-red-800"
    case "partnership" => "from-green-600 to-green-800"
    case _ => DefaultColor
  }

  /** `getTypeIcon`; the government icon carries an emoji variation
      selector. */
  function TypeIcon(t: string): (i: string)
    ensures t in IndiaResearchPage.InstitutionTypes <==> i != DefaultIcon
  {
    match t
    case "government" => "\U{1F3DB}\U{FE0F}"
    case "academic" => "\U{1F393}"
    case "industry" => "\U{1F3E2}"
    case "partnership" => "\U{1F91D}"
    case _ => DefaultIcon
  }

  /** The four types get four different gradients and four different icons,
      none of them the default. */
  lemma TypeStylesDistinct(t1: string, t2: string)
    requires t1 in IndiaResearchPage.InstitutionTypes && t2 in IndiaResearchPage.InstitutionTypes
    ensures TypeColor(t1) == TypeColor(t2) <==> t1 == t2
    ensures TypeIcon(t1) == TypeIcon(t2) <==> t1 == t2
    ensures TypeColor(t1) != DefaultColor && TypeIcon(t1) != DefaultIcon
  {
  }

  /** Any other type falls to the primary gradient and the microscope. */
  lemma UnknownTypeStyle(t: string)
    requires t !in IndiaResearchPage.InstitutionTypes
    ensures TypeColor(t) == DefaultColor && TypeIcon(t) == DefaultIcon
  {
  }

  /** Every institution the India research page lists reaches a non-default
      branch of both switches, whatever category is active. */
  lemma IndiaResearchTagsStyled(r: AIResearchInIndia, active: string)
    ensures forall x: Record :: x in IndiaResearchPage.GetFilteredInstitutions(r, active) ==>
              "type" in x && x["type"].Str? &&
              TypeColor(x["type"].s) != DefaultColor && TypeIcon(x["type"].s) != DefaultIcon
  {
    IndiaResearchPage.ProducedTypes(r, active);
    forall x: Record | x in IndiaResearchPage.GetFilteredInstitutions(r, active)
      ensures TypeColor(x["type"].s) != DefaultColor && TypeIcon(x["type"].s) != DefaultIcon
    {
      TypeStylesDistinct(x["type"].s, x["type"].s);
    }
  }

  /** The state a click moves the card to. */
  function Toggled(expanded: bool): (b: bool)
    ensures b != expanded
  {
    !expanded
  }

  /** Two clicks restore the card. */
  lemma ToggleTwiceRestores(expanded: bool)
    ensures Toggled(Toggled(expanded)) == expanded
    ensures Toggled(expanded) != expanded
  {
  }

  class CardState {
    var isExpanded: bool

    /** The card starts collapsed. */
    constructor ()
      ensures !isExpanded
    {
      isExpanded := false;
    }

    /** `onClick`: `setIsExpanded(!isExpanded)`. */
    method Click()
      modifies this
      ensures isExpanded == Toggled(old(isExpanded))
    {
      isExpanded := !isExpanded;
    }

    /** `isExpanded && details`: the details panel is rendered. */
    predicate DetailsShown(details: Value): (b: bool)
      reads this
      ensures b ==> isExpanded
      ensures isExpanded && (details.Obj? || details.Arr?) ==> b
      ensures details.Undefined? || details.Null? ==> !b
    {
      isExpanded && Truthy(details)
    }
  }

  /** The India research page passes each institution itself as `details`,
      an object, so an expanded card always shows its panel and a collapsed
      one never does. */
  lemma InstitutionDetailsShown(card: CardState, inst: Record)
    ensures card.DetailsShown(Obj(inst)) <==> card.isExpanded
    ensures !card.DetailsShown(Undefined)
  {
  }
}
