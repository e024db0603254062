/** The learning path card: a gradient chosen by the card's colour and a
    hover flag. */
module LearningPathCard {

  const PrimaryGradient := "from-primary-600 to-primary-900"

  const NamedColors: set<string> := {"blue", "purple", "green", "red"}

  /** `getGradient`. */
  function Gradient(color: string): (g: string)
    ensures color in NamedColors <==> g != PrimaryGradient
  {
    match color
    case "blue" => "from-blue-600 to-blue-900"
    case "purple" => "from-purple-600 to-purple-900"
    case "green" => "from-green-600 to-green-900"
    case "red" => "from-red-600 to-red-900"
    case _ => PrimaryGradient
  }

  /** The four named colours get four different gradients, none of them the
      primary one; every other colour, 'primary' included, gets the primary
      gradient. */
  lemma GradientsDistinct(color: string, other: string)
    ensures color in NamedColors && other in NamedColors ==> (Gradient(color) == Gradient(other) <==> color == other)
    ensures color in NamedColors ==> Gradient(color) != PrimaryGradient
    ensures color !in NamedColors ==> Gradient(color) == PrimaryGradient
  {
  }

  class HoverState {
    var isHovered: bool

    constructor ()
      ensures !isHovered
    {
      isHovered := false;
    }

    /** `onHoverStart`. */
    method HoverStart()
      modifies this
      ensures isHovered
    {
      isHovered := true;
    }

    /** `onHoverEnd`. */
    method HoverEnd()
      modifies this
      ensures !isHovered
    {
      isHovered := false;
    }
  }
}
