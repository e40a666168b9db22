/**
 * The client-side player object (Game/PlayerRoleController.cs): it stores the
 * role and resources the server sends, the current phase, and the card ids to
 * vote on, and it only lets the player play in the Play phase and vote in the
 * Vote phase.
 */
module PlayerClient {
  import opened GameTypes
  import Wrappers
  import opened Strings

  /** Server RPCs the client sends, in the order it sends them. */
  datatype Request =
    | PlayCard(client: nat, cardId: string)
    | VoteOnCard(client: nat, cardId: string, yes: bool)

  /** Card id the debug key plays. */
  const DebugCardId: string := "FAKE_CARD_P_KEY"

  /** The separator of the card list the server sends for a vote. */
  const CardSeparator: char := '|'

  /** The pending card ids after receiving `cardsCombined` (null or empty means none). */
  function ParseCards(cardsCombined: Wrappers.Option<string>): (r: seq<string>)
    ensures cardsCombined.None? || cardsCombined.value == "" ==> r == []
    ensures cardsCombined.Some? && cardsCombined.value != "" ==>
      |r| == Occurrences(cardsCombined.value, CardSeparator) + 1
    ensures forall i :: 0 <= i < |r| ==> CardSeparator !in r[i]
  {
    if cardsCombined.None? || cardsCombined.value == "" then []
    else Split(cardsCombined.value, CardSeparator)
  }

  /** The parsed card ids, joined again with '|', give back a non-empty input. */
  lemma ParseCardsRoundTrip(s: string)
    requires s != ""
    ensures Join(ParseCards(Wrappers.Some(s)), [CardSeparator]) == s
  {
    JoinSplit(s, CardSeparator);
  }

  /** Any non-empty list of '|'-free ids survives being joined and parsed. */
  lemma JoinedCardsParse(ids: seq<string>)
    requires |ids| > 0 && Join(ids, [CardSeparator]) != ""
    requires forall i :: 0 <= i < |ids| ==> CardSeparator !in ids[i]
    ensures ParseCards(Wrappers.Some(Join(ids, [CardSeparator]))) == ids
  {
    SplitJoin(ids, CardSeparator);
  }

  /** One vote per card, in order, all with the same value. */
  function Ballot(client: nat, cards: seq<string>, yes: bool): (r: seq<Request>)
    ensures |r| == |cards|
    ensures forall i :: 0 <= i < |r| ==> r[i] == VoteOnCard(client, cards[i], yes)
  {
    if |cards| == 0 then [] else Ballot(client, cards[..|cards| - 1], yes) + [VoteOnCard(client, cards[|cards| - 1], yes)]
  }

  class PlayerRoleController {
    /** Whether this instance belongs to the local player. */
    const isOwner: bool
    const ownerClientId: nat
    var role: Role
    var resourceLevel: int
    var currentPhase: Phase
    var cardsToVoteOn: seq<string>
    /** Server RPCs sent so far. */
    var requests: seq<Request>

    constructor (owner: bool, clientId: nat)
      ensures isOwner == owner && ownerClientId == clientId
      ensures role == None && resourceLevel == 0 && currentPhase == Lobby
      ensures cardsToVoteOn == [] && requests == []
    {
      isOwner := owner;
      ownerClientId := clientId;
      role := None;
      resourceLevel := 0;
      currentPhase := Lobby;
      cardsToVoteOn := [];
      requests := [];
    }

    /** `SetRole`: only the owner stores the role. */
    method SetRole(newRole: Role)
      modifies this
      ensures role == (if isOwner then newRole else old(role))
      ensures resourceLevel == old(resourceLevel) && currentPhase == old(currentPhase)
      ensures cardsToVoteOn == old(cardsToVoteOn) && requests == old(requests)
    {
      if !isOwner {
        return;
      }
      role := newRole;
    }

    /** `OnSectorStateUpdated`: only the owner stores the resource level; the role argument is only shown. */
    method OnSectorStateUpdated(sectorRole: Role, level: int)
      modifies this
      ensures resourceLevel == (if isOwner then level else old(resourceLevel))
      ensures role == old(role) && currentPhase == old(currentPhase)
      ensures cardsToVoteOn == old(cardsToVoteOn) && requests == old(requests)
    {
      if !isOwner {
        return;
      }
      resourceLevel := level;
    }

    /**
     * `OnBoardStateUpdated`: the owner stores the phase and drops the
     * pending cards whenever the new phase is not Vote.
     */
    method OnBoardStateUpdated(turnNumber: int, crisisLevel: int, phase: Phase)
      modifies this
      ensures !isOwner ==> currentPhase == old(currentPhase) && cardsToVoteOn == old(cardsToVoteOn)
      ensures isOwner ==> currentPhase == phase
      ensures isOwner && phase != Vote ==> cardsToVoteOn == []
      ensures isOwner && phase == Vote ==> cardsToVoteOn == old(cardsToVoteOn)
      ensures role == old(role) && resourceLevel == old(resourceLevel) && requests == old(requests)
    {
      if !isOwner {
        return;
      }
      currentPhase := phase;
      if phase != Vote && |cardsToVoteOn| > 0 {
        cardsToVoteOn := [];
      }
    }

    /** `OnCardsToVoteOn`: the owner replaces the pending list by the parsed ids. */
    method OnCardsToVoteOn(cardsCombined: Wrappers.Option<string>)
      modifies this
      ensures cardsToVoteOn == (if isOwner then ParseCards(cardsCombined) else old(cardsToVoteOn))
      ensures role == old(role) && resourceLevel == old(resourceLevel)
      ensures currentPhase == old(currentPhase) && requests == old(requests)
    {
      if !isOwner {
        return;
      }
      cardsToVoteOn := [];
      if !(cardsCombined.None? || cardsCombined.value == "") {
        var split := Split(cardsCombined.value, CardSeparator);
        cardsToVoteOn := cardsToVoteOn + split;
      }
    }

    /** `Update`, debug branch: the P key plays a placeholder card in the Play phase. */
    method Update(keyPDown: bool)
      modifies this
      ensures isOwner && keyPDown && currentPhase == Play ==>
        requests == old(requests) + [PlayCard(ownerClientId, DebugCardId)]
      ensures !(isOwner && keyPDown && old(currentPhase) == Play) ==> requests == old(requests)
      ensures role == old(role) && resourceLevel == old(resourceLevel)
      ensures currentPhase == old(currentPhase) && cardsToVoteOn == old(cardsToVoteOn)
    {
      if !isOwner {
        return;
      }
      if keyPDown && currentPhase == Play {
        RequestPlayCard(DebugCardId);
      }
    }

    /** `RequestPlayCard`: a play request goes out only in the Play phase. */
    method RequestPlayCard(cardId: string)
      modifies this
      ensures requests == old(requests) + (if currentPhase == Play then [PlayCard(ownerClientId, cardId)] else [])
      ensures role == old(role) && resourceLevel == old(resourceLevel)
      ensures currentPhase == old(currentPhase) && cardsToVoteOn == old(cardsToVoteOn)
    {
      if currentPhase != Play {
        return;
      }
      requests := requests + [PlayCard(ownerClientId, cardId)];
    }

    /**
     * `VoteOnAllCardsFromUI`: in the Vote phase with pending cards, one vote
     * per card goes out in order and the pending list is emptied; otherwise
     * nothing happens.
     */
    method VoteOnAllCardsFromUI(yes: bool)
      modifies this
      ensures old(currentPhase) == Vote && |old(cardsToVoteOn)| > 0 ==>
        requests == old(requests) + Ballot(ownerClientId, old(cardsToVoteOn), yes) && cardsToVoteOn == []
      ensures !(old(currentPhase) == Vote && |old(cardsToVoteOn)| > 0) ==>
        requests == old(requests) && cardsToVoteOn == old(cardsToVoteOn)
      ensures role == old(role) && resourceLevel == old(resourceLevel) && currentPhase == old(currentPhase)
    {
      if currentPhase != Vote {
        return;
      }
      if |cardsToVoteOn| == 0 {
        return;
      }
      var i := 0;
      while i < |cardsToVoteOn|
        invariant 0 <= i <= |cardsToVoteOn|
        invariant requests == old(requests) + Ballot(ownerClientId, cardsToVoteOn[..i], yes)
        invariant cardsToVoteOn == old(cardsToVoteOn)
        invariant role == old(role) && resourceLevel == old(resourceLevel) && currentPhase == old(currentPhase)
      {
        assert cardsToVoteOn[..i + 1][..i] == cardsToVoteOn[..i];
        requests := requests + [VoteOnCard(ownerClientId, cardsToVoteOn[i], yes)];
        i := i + 1;
      }
      assert cardsToVoteOn[..i] == cardsToVoteOn;
      cardsToVoteOn := [];
    }
  }
}
