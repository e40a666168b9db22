/**
 * Card records of the card library (CardLibrary/CardData.cs). The category
 * is an enumeration; a value outside its three named members, which the
 * enumeration type admits, is `Other`.
 */
module Cards {

  /** An underlying enumeration value that names none of the three categories (0, 1 and 2). */
  type UnnamedCategory = v: int | v < 0 || v > 2 witness 3

  datatype CardCategory = Policy | Project | ShortTerm | Other(value: UnnamedCategory)

  datatype CardData = CardData(id: string, title: string, category: CardCategory)
  {
    /** `GetTypeLabel`: the label shown for the card's category. */
    function GetTypeLabel(): string
    {
      match category
      case Policy => "Policy"
      case Project => "Project"
      case ShortTerm => "short-term"
      case Other(_) => ""
    }
  }

  /**
   * The three named categories get three distinct, non-empty labels, and
   * every other value gets the empty label.
   */
  lemma TypeLabels(a: CardData, b: CardData)
    ensures a.GetTypeLabel() == "" <==> a.category.Other?
    ensures !a.category.Other? && !b.category.Other? ==>
      (a.GetTypeLabel() == b.GetTypeLabel() <==> a.category == b.category)
  {
  }
}
