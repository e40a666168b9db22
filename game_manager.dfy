/**
 * The server's role pool (Game/GameManager.cs): a FIFO queue of the roles not
 * yet handed out and a map from client id to the role each connected client
 * holds, plus the shared board counters.
 */
module RoleAssignment {
  import opened GameTypes

  /** Network client ids (`ulong` in the source). */
  type ClientId = nat

  /** Client RPCs the server sends, in the order it sends them. */
  datatype Message =
    | RoleAssigned(target: ClientId, role: Role)
    | BoardStateToClient(target: ClientId, turnNumber: int, crisisLevel: int)
    | BoardStateToAll(turnNumber: int, crisisLevel: int)

  /** The queue of free roles and the client-to-role map, as one value. */
  datatype Pool = Pool(queue: seq<Role>, roles: map<ClientId, Role>)

  /** The four playable roles, in the order the server enqueues them. */
  const InitialQueue: seq<Role> := [Farming, Industry, Housing, Nature]

  /** The pool right after start-up. */
  const InitialPool: Pool := Pool(InitialQueue, map[])

  /** A non-host client connects: it takes the front role, or `None` when the queue is empty. */
  function Connect(p: Pool, c: ClientId): Pool
  {
    if |p.queue| > 0 then Pool(p.queue[1..], p.roles[c := p.queue[0]])
    else Pool(p.queue, p.roles[c := None])
  }

  /** A client disconnects: its entry goes, and a real role returns to the back of the queue. */
  function Disconnect(p: Pool, c: ClientId): Pool
  {
    if c !in p.roles then p
    else if p.roles[c] != None then Pool(p.queue + [p.roles[c]], p.roles - {c})
    else Pool(p.queue, p.roles - {c})
  }

  /** The clients holding role `r`. */
  function Holders(roles: map<ClientId, Role>, r: Role): set<ClientId>
  {
    set c | c in roles && roles[c] == r
  }

  /** Role `r` is either waiting in the queue or held by a client, exactly once. */
  predicate RoleConserved(p: Pool, r: Role)
  {
    multiset(p.queue)[r] + |Holders(p.roles, r)| == 1
  }

  /**
   * The pool's invariant: the queue never holds `None`, and each of the four
   * real roles is accounted for exactly once, queued or held.
   */
  predicate RolesConserved(p: Pool)
  {
    None !in p.queue && forall r :: r != None ==> RoleConserved(p, r)
  }

  /** The start-up pool satisfies the invariant. */
  lemma InitialPoolConserved()
    ensures RolesConserved(InitialPool)
  {
    forall r | r != None ensures RoleConserved(InitialPool, r) {
      assert Holders(map[], r) == {};
    }
  }

  /** A connect by a client id that holds no entry keeps every role accounted for. */
  lemma ConnectConserves(p: Pool, c: ClientId)
    requires RolesConserved(p) && c !in p.roles
    ensures RolesConserved(Connect(p, c))
  {
    forall r | r != None ensures RoleConserved(Connect(p, c), r) {
      ConnectKeepsRole(p, c, r);
    }
  }

  /** One real role stays accounted for across a connect by a new client id. */
  lemma ConnectKeepsRole(p: Pool, c: ClientId, r: Role)
    requires RoleConserved(p, r) && c !in p.roles && r != None
    ensures RoleConserved(Connect(p, c), r)
  {
    var q := Connect(p, c);
    if |p.queue| > 0 {
      var front := p.queue[0];
      assert p.queue == [front] + p.queue[1..];
      assert multiset(p.queue) == multiset{front} + multiset(q.queue);
      HoldersAfterAdd(p.roles, c, front, r);
    } else {
      HoldersAfterAdd(p.roles, c, None, r);
    }
  }

  /** Every disconnect keeps every role accounted for. */
  lemma DisconnectConserves(p: Pool, c: ClientId)
    requires RolesConserved(p)
    ensures RolesConserved(Disconnect(p, c))
  {
    if c in p.roles {
      forall r | r != None ensures RoleConserved(Disconnect(p, c), r) {
        DisconnectKeepsRole(p, c, r);
      }
    }
  }

  /** One real role stays accounted for across a disconnect. */
  lemma DisconnectKeepsRole(p: Pool, c: ClientId, r: Role)
    requires RoleConserved(p, r) && c in p.roles && r != None
    ensures RoleConserved(Disconnect(p, c), r)
  {
    var q := Disconnect(p, c);
    var held := p.roles[c];
    HoldersAfterRemove(p.roles, c, r);
    if held != None {
      assert multiset(q.queue) == multiset(p.queue) + multiset{held};
    }
  }

  /** A new entry for `c` joins the holders of its role and leaves the others alone. */
  lemma HoldersAfterAdd(roles: map<ClientId, Role>, c: ClientId, x: Role, r: Role)
    requires c !in roles
    ensures Holders(roles[c := x], r) == if x == r then Holders(roles, r) + {c} else Holders(roles, r)
    ensures c !in Holders(roles, r)
  {
  }

  /** Removing the entry of `c` takes it out of the holders of its role only. */
  lemma HoldersAfterRemove(roles: map<ClientId, Role>, c: ClientId, r: Role)
    requires c in roles
    ensures Holders(roles - {c}, r) == Holders(roles, r) - {c}
    ensures c in Holders(roles, r) <==> roles[c] == r
  {
  }

  /** Under the invariant a client holding a real role is that role's only holder. */
  lemma OnlyHolder(p: Pool, c: ClientId)
    requires RolesConserved(p) && c in p.roles
    ensures p.roles[c] != None ==> Holders(p.roles, p.roles[c]) == {c}
  {
    var r := p.roles[c];
    if r != None {
      assert RoleConserved(p, r);
      var h := Holders(p.roles, r);
      assert c in h;
      assert |h - {c}| == |h| - 1;
      assert h - {c} == {};
    }
  }

  /** Under the invariant no two clients hold the same real role. */
  lemma RolesExclusive(p: Pool, c1: ClientId, c2: ClientId)
    requires RolesConserved(p)
    requires c1 in p.roles && c2 in p.roles && c1 != c2
    requires p.roles[c1] == p.roles[c2]
    ensures p.roles[c1] == None
  {
    OnlyHolder(p, c1);
    assert c2 in Holders(p.roles, p.roles[c1]);
  }

  /** Under the invariant a queued role is held by nobody and queued only once. */
  lemma QueuedNotHeld(p: Pool, r: Role)
    requires RolesConserved(p) && r in p.queue
    ensures Holders(p.roles, r) == {}
    ensures multiset(p.queue)[r] == 1
  {
    assert RoleConserved(p, r);
  }

  /** Roles go out first-in-first-out: five clients get the four roles in order, then `None`. */
  lemma ConnectOrder(c1: ClientId, c2: ClientId, c3: ClientId, c4: ClientId, c5: ClientId)
    ensures var p := Connect(Connect(Connect(Connect(Connect(InitialPool, c1), c2), c3), c4), c5);
      p.queue == [] && p.roles[c5] == None
    ensures
      var p4 := Connect(Connect(Connect(Connect(InitialPool, c1), c2), c3), c4);
      |{c1, c2, c3, c4}| == 4 ==>
        p4.roles == map[c1 := Farming, c2 := Industry, c3 := Housing, c4 := Nature]
  {
  }

  /**
   * Connecting and then disconnecting a fresh client leaves the map as it
   * was and rotates the role it took to the back of the queue.
   */
  lemma ConnectThenDisconnect(p: Pool, c: ClientId)
    requires c !in p.roles && None !in p.queue
    ensures Disconnect(Connect(p, c), c).roles == p.roles
    ensures |p.queue| > 0 ==> Disconnect(Connect(p, c), c).queue == p.queue[1..] + [p.queue[0]]
    ensures |p.queue| == 0 ==> Disconnect(Connect(p, c), c) == p
  {
    assert p.roles[c := if |p.queue| > 0 then p.queue[0] else None] - {c} == p.roles;
  }

  /**
   * A client id that connects twice without disconnecting overwrites its
   * first role, which is then neither queued nor held: the invariant breaks.
   */
  lemma ReconnectLosesRole(c: ClientId)
    ensures var p := Connect(Connect(InitialPool, c), c);
      p.roles == map[c := Industry] && p.queue == [Housing, Nature]
      && !RoleConserved(p, Farming)
  {
    var p := Connect(Connect(InitialPool, c), c);
    assert Holders(p.roles, Farming) == {};
  }

  /** The server-side game manager. */
  class GameManager {
    /** The host's own client id; the host is the board, not a player. */
    const hostClientId: ClientId
    var playerRoles: map<ClientId, Role>
    var availableRoles: seq<Role>
    var boardState: BoardState
    /** Client RPCs sent so far. */
    var outbox: seq<Message>

    function State(): Pool
      reads this
    {
      Pool(availableRoles, playerRoles)
    }

    predicate Valid()
      reads this
    {
      hostClientId !in playerRoles && None !in availableRoles
    }

    /** `Awake`: the four roles queued in order, turn 1, crisis 0. */
    constructor (host: ClientId)
      ensures Valid() && RolesConserved(State())
      ensures hostClientId == host
      ensures availableRoles == [Farming, Industry, Housing, Nature] && playerRoles == map[]
      ensures boardState == BoardState(1, 0) && outbox == []
    {
      hostClientId := host;
      playerRoles := map[];
      availableRoles := InitialQueue;
      boardState := BoardState(1, 0);
      outbox := [];
      InitialPoolConserved();
    }

    /**
     * `OnClientConnected`: the host is ignored; anyone else gets the front
     * role (or `None`), is told its role and is sent the board state.
     */
    method OnClientConnected(clientId: ClientId)
      requires Valid()
      modifies this
      ensures Valid()
      ensures clientId == hostClientId ==> State() == old(State()) && outbox == old(outbox)
      ensures clientId != hostClientId ==> State() == Connect(old(State()), clientId)
      ensures clientId != hostClientId ==> outbox == old(outbox) + [
        RoleAssigned(clientId, playerRoles[clientId]),
        BoardStateToClient(clientId, boardState.turnNumber, boardState.crisisLevel)]
      ensures boardState == old(boardState)
    {
      if clientId == hostClientId {
        return;
      }
      var roleToAssign := None;
      if |availableRoles| > 0 {
        roleToAssign := availableRoles[0];
        availableRoles := availableRoles[1..];
      }
      playerRoles := playerRoles[clientId := roleToAssign];
      outbox := outbox + [RoleAssigned(clientId, roleToAssign)];
      outbox := outbox + [BoardStateToClient(clientId, boardState.turnNumber, boardState.crisisLevel)];
    }

    /** `OnClientDisconnected`: drops the client's entry and re-queues a real role. */
    method OnClientDisconnected(clientId: ClientId)
      requires Valid()
      modifies this
      ensures Valid()
      ensures State() == Disconnect(old(State()), clientId)
      ensures boardState == old(boardState) && outbox == old(outbox)
    {
      if clientId in playerRoles {
        var role := playerRoles[clientId];
        playerRoles := playerRoles - {clientId};
        if role != None {
          availableRoles := availableRoles + [role];
        }
      }
    }

    /** `AdvanceTurnServerRpc`: both counters go up by one and everyone is told. */
    method AdvanceTurnServerRpc()
      modifies this
      ensures boardState == BoardState(old(boardState.turnNumber) + 1, old(boardState.crisisLevel) + 1)
      ensures State() == old(State())
      ensures outbox == old(outbox) + [BoardStateToAll(boardState.turnNumber, boardState.crisisLevel)]
    {
      boardState := boardState.(turnNumber := boardState.turnNumber + 1);
      boardState := boardState.(crisisLevel := boardState.crisisLevel + 1);
      outbox := outbox + [BoardStateToAll(boardState.turnNumber, boardState.crisisLevel)];
    }
  }
}
