/**
 * Attaching risks to a project card while it is being created
 * (CardCreationController.cs, ProjectCard.cs). The preview widget is reduced
 * to the list of risks it last displayed; opening the risk selection panel is
 * UI and is not part of this model.
 */
module CardCreation {
  import opened Risks
  import opened Seqs

  class ProjectCard {
    var cardName: string
    var addedRisks: seq<Risk>

    /** A new card asset has no risks. */
    constructor (name: string)
      ensures cardName == name && addedRisks == []
    {
      cardName := name;
      addedRisks := [];
    }
  }

  class CardCreationController {
    const currentCard: ProjectCard
    /** The risks the preview card shows, as of its last `SetCard`. */
    var previewRisks: seq<Risk>

    constructor (card: ProjectCard)
      ensures currentCard == card && previewRisks == []
    {
      currentCard := card;
      previewRisks := [];
    }

    /**
     * `AddRiskToCard`: a risk the card lacks is appended and the preview is
     * refreshed to show the new list; a risk already on the card changes
     * neither the card nor the preview.
     */
    method AddRiskToCard(risk: Risk)
      modifies this, currentCard
      ensures currentCard.addedRisks == AddIfAbsent(old(currentCard.addedRisks), risk)
      ensures currentCard.cardName == old(currentCard.cardName)
      ensures risk !in old(currentCard.addedRisks) ==> previewRisks == currentCard.addedRisks
      ensures risk in old(currentCard.addedRisks) ==> previewRisks == old(previewRisks)
    {
      if risk !in currentCard.addedRisks {
        currentCard.addedRisks := currentCard.addedRisks + [risk];
        previewRisks := currentCard.addedRisks;
      }
    }
  }
}
