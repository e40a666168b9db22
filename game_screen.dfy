/**
 * The tablet's game screen (GameScreenController.cs, class `GameScreen`): a
 * draw phase that starts at most once and a card play that is accepted at
 * most once (the draw never restarts, so neither does the play), after
 * which the voting panel is shown.
 */
module GameScreenFlow {

  /** Calls the screen makes into other components, in order. */
  datatype Event =
    | DrawSequenceRequested
    | CardSynced(cardId: string, cardTitle: string)
    | FinishVotingScheduled
    | NextPhaseRequested

  class GameScreen {
    /** Which inspector references are assigned and which options are on. */
    const hasDeckManager: bool
    const hasSyncHelper: bool
    const hasDeckCanvas: bool
    const hasVotingUI: bool
    const autoStartDrawOnSceneLoad: bool
    const autoFinishVoting: bool

    var drawStarted: bool
    var cardPlayed: bool
    var deckCanvasActive: bool
    var votingUIActive: bool
    var events: seq<Event>

    constructor (deck: bool, sync: bool, canvas: bool, voting: bool, autoStart: bool, autoFinish: bool,
                 canvasActive: bool, votingActive: bool)
      ensures hasDeckManager == deck && hasSyncHelper == sync
      ensures hasDeckCanvas == canvas && hasVotingUI == voting
      ensures autoStartDrawOnSceneLoad == autoStart && autoFinishVoting == autoFinish
      ensures !drawStarted && !cardPlayed && events == []
      ensures deckCanvasActive == canvasActive && votingUIActive == votingActive
    {
      hasDeckManager := deck;
      hasSyncHelper := sync;
      hasDeckCanvas := canvas;
      hasVotingUI := voting;
      autoStartDrawOnSceneLoad := autoStart;
      autoFinishVoting := autoFinish;
      drawStarted := false;
      cardPlayed := false;
      deckCanvasActive := canvasActive;
      votingUIActive := votingActive;
      events := [];
    }

    /**
     * The effect of a call to `StartDrawPhase`: the draw is started; a first
     * start re-arms the card play, shows the deck canvas, hides the voting
     * panel and, with a deck manager, requests the draw sequence; a repeated
     * start changes nothing.
     */
    twostate predicate DrawPhaseStarted()
      reads this
    {
      drawStarted
      && (old(drawStarted) ==>
        cardPlayed == old(cardPlayed) && events == old(events)
        && deckCanvasActive == old(deckCanvasActive) && votingUIActive == old(votingUIActive))
      && (!old(drawStarted) ==>
        !cardPlayed
        && events == old(events) + (if hasDeckManager then [DrawSequenceRequested] else [])
        && deckCanvasActive == (hasDeckCanvas || old(deckCanvasActive))
        && votingUIActive == (!hasVotingUI && old(votingUIActive)))
    }

    /** `Start`: begins the draw phase when auto-start is on; otherwise nothing changes. */
    method Start()
      modifies this
      ensures autoStartDrawOnSceneLoad ==> DrawPhaseStarted()
      ensures !autoStartDrawOnSceneLoad ==>
        drawStarted == old(drawStarted) && cardPlayed == old(cardPlayed) && events == old(events)
        && deckCanvasActive == old(deckCanvasActive) && votingUIActive == old(votingUIActive)
    {
      if autoStartDrawOnSceneLoad {
        StartDrawPhase();
      }
    }

    /**
     * `StartDrawPhase`: a one-shot. The first call marks the draw as started
     * and re-arms the card play, even when no deck manager is assigned; only
     * with a deck manager is the draw sequence requested.
     */
    method StartDrawPhase()
      modifies this
      ensures DrawPhaseStarted()
    {
      if drawStarted {
        return;
      }
      drawStarted := true;
      cardPlayed := false;
      if hasDeckCanvas {
        deckCanvasActive := true;
      }
      if hasVotingUI {
        votingUIActive := false;
      }
      if !hasDeckManager {
        return;
      }
      events := events + [DrawSequenceRequested];
    }

    /**
     * `OnCardPlayed`: a one-shot until the next draw. The first call forwards
     * the card for sync when its id is non-empty, swaps the deck canvas for
     * the voting panel and schedules the end of voting.
     */
    method OnCardPlayed(cardId: string, cardTitle: string)
      modifies this
      ensures cardPlayed && drawStarted == old(drawStarted)
      ensures old(cardPlayed) ==>
        events == old(events)
        && deckCanvasActive == old(deckCanvasActive) && votingUIActive == old(votingUIActive)
      ensures !old(cardPlayed) ==>
        events == old(events)
          + (if hasSyncHelper && cardId != "" then [CardSynced(cardId, cardTitle)] else [])
          + (if autoFinishVoting then [FinishVotingScheduled] else [])
      ensures !old(cardPlayed) ==> deckCanvasActive == (!hasDeckCanvas && old(deckCanvasActive))
      ensures !old(cardPlayed) ==> votingUIActive == (hasVotingUI || old(votingUIActive))
    {
      if cardPlayed {
        return;
      }
      cardPlayed := true;
      if hasSyncHelper && cardId != "" {
        events := events + [CardSynced(cardId, cardTitle)];
      }
      if hasDeckCanvas {
        deckCanvasActive := false;
      }
      if hasVotingUI {
        votingUIActive := true;
      }
      if autoFinishVoting {
        events := events + [FinishVotingScheduled];
      }
    }

    /** `FinishVoting`: asks the flow manager, when there is one, to move to the next phase. */
    method FinishVoting(flowManagerPresent: bool)
      modifies this
      ensures events == old(events) + (if flowManagerPresent then [NextPhaseRequested] else [])
      ensures drawStarted == old(drawStarted) && cardPlayed == old(cardPlayed)
      ensures deckCanvasActive == old(deckCanvasActive) && votingUIActive == old(votingUIActive)
    {
      if flowManagerPresent {
        events := events + [NextPhaseRequested];
      }
    }
  }
}
