/**
 * The server's vote record (VotingSystem/VotingManager.cs): for each proposal
 * id, a map from voter id to that voter's latest yes/no vote. Votes are only
 * recorded here; nothing tallies them.
 */
module Voting {

  /** A proposal as the server lists it (`CardProposalNetwork`). */
  datatype Proposal = Proposal(proposalId: int, cardTitle: string, proposerClientId: nat)

  type Votes = map<int, map<nat, bool>>

  /**
   * The vote table after `voter` votes `vote` on proposal `pid`: the
   * proposal's bucket is created if missing, and only the (pid, voter) entry
   * is written.
   */
  function RecordVote(votes: Votes, pid: int, voter: nat, vote: bool): (r: Votes)
    ensures pid in r && voter in r[pid] && r[pid][voter] == vote
    ensures r.Keys == votes.Keys + {pid}
    ensures forall p :: p in votes && p != pid ==> r[p] == votes[p]
    ensures pid in votes ==> r[pid].Keys == votes[pid].Keys + {voter}
    ensures pid !in votes ==> r[pid].Keys == {voter}
    ensures pid in votes ==> forall v :: v in votes[pid] && v != voter ==> r[pid][v] == votes[pid][v]
  {
    var bucket: map<nat, bool> := if pid in votes then votes[pid] else map[];
    votes[pid := bucket[voter := vote]]
  }

  /** A repeated vote by the same voter on the same proposal replaces the earlier one. */
  lemma RepeatVoteOverwrites(votes: Votes, pid: int, voter: nat, first: bool, second: bool)
    ensures RecordVote(RecordVote(votes, pid, voter, first), pid, voter, second)
      == RecordVote(votes, pid, voter, second)
  {
    var a := RecordVote(RecordVote(votes, pid, voter, first), pid, voter, second);
    var b := RecordVote(votes, pid, voter, second);
    assert a[pid] == b[pid];
  }

  /** Votes by different voters, or on different proposals, may arrive in either order. */
  lemma VotesCommute(votes: Votes, p1: int, v1: nat, x1: bool, p2: int, v2: nat, x2: bool)
    requires p1 != p2 || v1 != v2
    ensures RecordVote(RecordVote(votes, p1, v1, x1), p2, v2, x2)
      == RecordVote(RecordVote(votes, p2, v2, x2), p1, v1, x1)
  {
    if p1 == p2 {
      var bucket: map<nat, bool> := if p1 in votes then votes[p1] else map[];
      assert bucket[v1 := x1][v2 := x2] == bucket[v2 := x2][v1 := x1];
    }
  }

  /** The two placeholder proposals the server seeds. */
  const Placeholders: seq<Proposal> := [
    Proposal(0, "Build Water Plant", 0),
    Proposal(1, "Subsidize Farmers", 1)
  ]

  class VotingManager {
    const isServer: bool
    var proposals: seq<Proposal>
    var votes: Votes

    /** `Awake`: no proposals and no votes yet. */
    constructor (server: bool)
      ensures isServer == server && proposals == [] && votes == map[]
    {
      isServer := server;
      proposals := [];
      votes := map[];
    }

    /** `OnNetworkSpawn`: only the server seeds the placeholder proposals. */
    method OnNetworkSpawn()
      modifies this
      ensures proposals == old(proposals) + (if isServer then Placeholders else [])
      ensures votes == old(votes)
    {
      if isServer {
        CreatePlaceholderProposals();
      }
    }

    /** `CreatePlaceholderProposals`: appends proposals 0 and 1, in that order. */
    method CreatePlaceholderProposals()
      modifies this
      ensures proposals == old(proposals) + Placeholders
      ensures votes == old(votes)
    {
      proposals := proposals + [Proposal(0, "Build Water Plant", 0)];
      proposals := proposals + [Proposal(1, "Subsidize Farmers", 1)];
    }

    /** `SubmitVoteServerRpc`: creates the proposal's bucket if needed and stores the vote. */
    method SubmitVoteServerRpc(proposalId: int, vote: bool, voterId: nat)
      modifies this
      ensures votes == RecordVote(old(votes), proposalId, voterId, vote)
      ensures proposals == old(proposals)
    {
      if proposalId !in votes {
        var empty: map<nat, bool> := map[];
        votes := votes[proposalId := empty];
      }
      var bucket: map<nat, bool> := votes[proposalId];
      votes := votes[proposalId := bucket[voterId := vote]];
    }
  }
}
