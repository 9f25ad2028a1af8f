/** The backend's registry of push sockets: connection ids map to sockets, user ids to the
    ordered list of that user's connection ids. A send is modelled by the sequence of
    socket writes it performs, in order; a send to a user or a group first serialises the
    frame with `json.dumps`, whose `TypeError` is the `Err` of the result. */
module ConnectionManager {
  import opened Wrappers
  import opened PyJson

  type ConnId = string
  type UserId = string
  /** A server-side socket, named by a handle. */
  type Socket = nat

  /** One `send_text` call: which socket, what text. */
  datatype Delivery = Delivery(socket: Socket, text: string)

  /** `active_connections` and `user_connections`. */
  datatype Registry = Registry(active: map<ConnId, Socket>, users: map<UserId, seq<ConnId>>)

  /** The registry's invariant: no user maps to an empty list. */
  predicate NoEmptyLists(users: map<UserId, seq<ConnId>>) {
    forall u :: u in users ==> users[u] != []
  }

  /** `list.remove`: the first occurrence goes, if there is one. */
  function RemoveFirst(list: seq<ConnId>, id: ConnId): (r: seq<ConnId>)
    ensures id in list ==> |r| == |list| - 1
    ensures id !in list ==> r == list
  {
    if list == [] then []
    else if list[0] == id then
      assert list == [list[0]] + list[1..];
      list[1..]
    else
      assert list == [list[0]] + list[1..];
      [list[0]] + RemoveFirst(list[1..], id)
  }

  /** `remove` takes out exactly the first occurrence and keeps the order of the rest. */
  lemma {:induction false} RemoveFirstAt(list: seq<ConnId>, id: ConnId, i: nat)
    requires i < |list| && list[i] == id && id !in list[..i]
    ensures RemoveFirst(list, id) == list[..i] + list[i + 1..]
  {
    if i > 0 {
      assert list[0] != id by { assert list[0] == list[..i][0]; }
      assert list[1..][..i - 1] == list[1..i];
      RemoveFirstAt(list[1..], id, i - 1);
      assert list[..i] == [list[0]] + list[1..][..i - 1];
      assert list[1..][i..] == list[i + 1..];
    }
  }

  lemma {:induction false} RemoveAppended(list: seq<ConnId>, id: ConnId)
    requires id !in list
    ensures RemoveFirst(list + [id], id) == list
  {
    if list != [] {
      assert (list + [id])[1..] == list[1..] + [id];
      RemoveAppended(list[1..], id);
      assert [list[0]] + list[1..] == list;
    }
  }

  function ConnectionsOf(users: map<UserId, seq<ConnId>>, userId: UserId): seq<ConnId> {
    if userId in users then users[userId] else []
  }

  /** `connect` once the socket is accepted: the connection is registered and appended to
      the user's list, which is created when the user had none. */
  function Connected(reg: Registry, socket: Socket, userId: UserId, connectionId: ConnId): (r: Registry)
    ensures r.active == reg.active[connectionId := socket]
    ensures r.users == reg.users[userId := ConnectionsOf(reg.users, userId) + [connectionId]]
    ensures NoEmptyLists(reg.users) ==> NoEmptyLists(r.users)
  {
    Registry(reg.active[connectionId := socket],
             reg.users[userId := ConnectionsOf(reg.users, userId) + [connectionId]])
  }

  /** `disconnect`: the connection is forgotten and taken out of the user's list, and a
      user whose list becomes empty is dropped. Unknown ids raise nothing and leave the
      part they would have touched as it was. The result never maps a user to an empty
      list, whatever the registry held for that user before. */
  function Disconnected(reg: Registry, connectionId: ConnId, userId: UserId): (r: Registry)
    ensures r.active == reg.active - {connectionId}
    ensures userId !in reg.users ==> r.users == reg.users
    ensures userId in reg.users && RemoveFirst(reg.users[userId], connectionId) != []
            ==> r.users == reg.users[userId := RemoveFirst(reg.users[userId], connectionId)]
    ensures userId in reg.users && RemoveFirst(reg.users[userId], connectionId) == []
            ==> r.users == reg.users - {userId}
    ensures NoEmptyLists(reg.users) ==> NoEmptyLists(r.users)
    ensures userId !in r.users || r.users[userId] != []
  {
    var active := reg.active - {connectionId};
    if userId in reg.users then
      var rest := RemoveFirst(reg.users[userId], connectionId);
      if rest == [] then Registry(active, reg.users - {userId})
      else Registry(active, reg.users[userId := rest])
    else Registry(active, reg.users)
  }

  /** A connection that comes and goes leaves the registry as it found it. */
  lemma DisconnectUndoesConnect(reg: Registry, socket: Socket, userId: UserId, connectionId: ConnId)
    requires connectionId !in reg.active
    requires connectionId !in ConnectionsOf(reg.users, userId)
    requires NoEmptyLists(reg.users)
    ensures Disconnected(Connected(reg, socket, userId, connectionId), connectionId, userId) == reg
  {
    var c := Connected(reg, socket, userId, connectionId);
    var before := ConnectionsOf(reg.users, userId);
    RemoveAppended(before, connectionId);
    assert c.users[userId] == before + [connectionId];
    assert RemoveFirst(c.users[userId], connectionId) == before;
    var r := Disconnected(c, connectionId, userId);
    assert r.active == reg.active;
    if userId in reg.users {
      assert before != [];
      assert r.users == c.users[userId := before];
      assert r.users == reg.users;
    } else {
      assert before == [];
      assert r.users == c.users - {userId};
      assert r.users == reg.users;
    }
  }

  /** The writes `send_personal_message` makes for each id in turn: one write to the
      registered socket of each registered id, in list order, and none for the others. */
  function Writes(active: map<ConnId, Socket>, ids: seq<ConnId>, text: string): (r: seq<Delivery>)
    ensures |r| <= |ids|
    ensures forall k :: 0 <= k < |r| ==> r[k].text == text && r[k].socket in active.Values
    ensures (forall i :: 0 <= i < |ids| ==> ids[i] in active)
            ==> |r| == |ids| && forall k :: 0 <= k < |r| ==> r[k] == Delivery(active[ids[k]], text)
    decreases |ids|
  {
    if ids == [] then []
    else
      var head := if ids[0] in active then [Delivery(active[ids[0]], text)] else [];
      var tail := Writes(active, ids[1..], text);
      assert forall k :: 0 <= k < |tail| ==> (head + tail)[|head| + k] == tail[k];
      head + tail
  }

  lemma {:induction false} WritesAppend(active: map<ConnId, Socket>, ids: seq<ConnId>, id: ConnId, text: string)
    ensures Writes(active, ids + [id], text) == Writes(active, ids, text) + Writes(active, [id], text)
    decreases |ids|
  {
    if ids == [] {
      assert ids + [id] == [id];
    } else {
      assert (ids + [id])[1..] == ids[1..] + [id];
      WritesAppend(active, ids[1..], id, text);
    }
  }

  /** `send_to_user`: each of the user's connections in registration order; an unknown
      user gets nothing. */
  function UserWrites(reg: Registry, userId: UserId, text: string): seq<Delivery> {
    Writes(reg.active, ConnectionsOf(reg.users, userId), text)
  }

  /** `send_to_group`: `send_to_user` once per listed user id, in list order. */
  function GroupWrites(reg: Registry, userIds: seq<UserId>, text: string): seq<Delivery>
    decreases |userIds|
  {
    if userIds == [] then [] else GroupWrites(reg, userIds[..|userIds| - 1], text) + UserWrites(reg, userIds[|userIds| - 1], text)
  }

  /** Every registered connection of a user who is reached gets the text. */
  lemma {:induction false} WritesReach(active: map<ConnId, Socket>, ids: seq<ConnId>, c: ConnId, text: string)
    requires c in ids && c in active
    ensures Delivery(active[c], text) in Writes(active, ids, text)
    decreases |ids|
  {
    if ids[0] != c {
      assert c in ids[1..];
      WritesReach(active, ids[1..], c, text);
    }
  }

  /** A group send reaches every registered connection of every listed user. */
  lemma {:induction false} GroupReaches(reg: Registry, userIds: seq<UserId>, u: UserId, c: ConnId, text: string)
    requires u in userIds && c in ConnectionsOf(reg.users, u) && c in reg.active
    ensures Delivery(reg.active[c], text) in GroupWrites(reg, userIds, text)
    decreases |userIds|
  {
    var n := |userIds|;
    if userIds[n - 1] == u {
      WritesReach(reg.active, ConnectionsOf(reg.users, u), c, text);
    } else {
      assert userIds == userIds[..n - 1] + [userIds[n - 1]];
      assert u in userIds[..n - 1];
      GroupReaches(reg, userIds[..n - 1], u, c, text);
    }
  }

  /** `send_to_user` with a frame: nothing, not even serialisation, for an unknown user;
      otherwise the `json.dumps` text to each connection, or its `TypeError`. */
  function UserSend(reg: Registry, userId: UserId, message: Json): (r: Result<seq<Delivery>, string>)
    ensures userId !in reg.users ==> r == Ok([])
    ensures userId in reg.users ==> (r.Ok? <==> Serializable(message))
    ensures r.Ok? && userId in reg.users ==> r.value == UserWrites(reg, userId, Dumps(message).value)
  {
    if userId !in reg.users then Ok([])
    else
      var text := Dumps(message);
      if text.Err? then Err(text.error) else Ok(UserWrites(reg, userId, text.value))
  }

  /** `send_to_group`: the frame is serialised up front, so a frame `json.dumps` rejects
      raises before any write, even to an empty group; otherwise the writes of
      `send_to_user` for each listed user in turn. */
  function GroupSend(reg: Registry, userIds: seq<UserId>, message: Json): (r: Result<seq<Delivery>, string>)
    ensures r.Ok? <==> Serializable(message)
    ensures r.Ok? ==> r.value == GroupWrites(reg, userIds, Dumps(message).value)
  {
    var text := Dumps(message);
    if text.Err? then Err(text.error) else Ok(GroupWrites(reg, userIds, text.value))
  }

  class Manager {
    var activeConnections: map<ConnId, Socket>
    var userConnections: map<UserId, seq<ConnId>>

    function State(): Registry
      reads this
    {
      Registry(activeConnections, userConnections)
    }

    ghost predicate Valid()
      reads this
    {
      NoEmptyLists(userConnections)
    }

    constructor ()
      ensures Valid() && activeConnections == map[] && userConnections == map[]
    {
      activeConnections := map[];
      userConnections := map[];
    }

    method Connect(socket: Socket, userId: UserId, connectionId: ConnId)
      requires Valid()
      modifies this
      ensures Valid() && State() == Connected(old(State()), socket, userId, connectionId)
    {
      activeConnections := activeConnections[connectionId := socket];
      if userId !in userConnections {
        userConnections := userConnections[userId := []];
      }
      userConnections := userConnections[userId := userConnections[userId] + [connectionId]];
    }

    method Disconnect(connectionId: ConnId, userId: UserId)
      requires Valid()
      modifies this
      ensures Valid() && State() == Disconnected(old(State()), connectionId, userId)
    {
      if connectionId in activeConnections {
        activeConnections := activeConnections - {connectionId};
      }
      if userId in userConnections {
        ghost var rest := RemoveFirst(userConnections[userId], connectionId);
        if connectionId in userConnections[userId] {
          userConnections := userConnections[userId := RemoveFirst(userConnections[userId], connectionId)];
        }
        assert userConnections == old(userConnections)[userId := rest];
        if userConnections[userId] == [] {
          userConnections := userConnections - {userId};
          assert userConnections == old(userConnections) - {userId};
        }
      }
    }

    method SendPersonalMessage(text: string, connectionId: ConnId) returns (sent: seq<Delivery>)
      ensures sent == Writes(activeConnections, [connectionId], text)
      ensures connectionId !in activeConnections <==> sent == []
    {
      sent := [];
      if connectionId in activeConnections {
        var websocket := activeConnections[connectionId];
        sent := [Delivery(websocket, text)];
      }
    }

    method SendToUser(message: Json, userId: UserId) returns (result: Result<seq<Delivery>, string>)
      ensures result == UserSend(State(), userId, message)
    {
      result := Ok([]);
      if userId in userConnections {
        var text := Dumps(message);
        if text.Err? {
          return Err(text.error);
        }
        var sent := [];
        var ids := userConnections[userId];
        for i := 0 to |ids|
          invariant sent == Writes(activeConnections, ids[..i], text.value)
        {
          var one := SendPersonalMessage(text.value, ids[i]);
          WritesAppend(activeConnections, ids[..i], ids[i], text.value);
          assert ids[..i + 1] == ids[..i] + [ids[i]];
          sent := sent + one;
        }
        assert ids[..|ids|] == ids;
        result := Ok(sent);
      }
    }

    method SendToGroup(message: Json, userIds: seq<UserId>) returns (result: Result<seq<Delivery>, string>)
      ensures result == GroupSend(State(), userIds, message)
    {
      var text := Dumps(message);
      if text.Err? {
        return Err(text.error);
      }
      var sent := [];
      for i := 0 to |userIds|
        invariant sent == GroupWrites(State(), userIds[..i], text.value)
      {
        var one := SendToUser(message, userIds[i]);
        assert userIds[..i + 1][..i] == userIds[..i];
        sent := sent + one.value;
      }
      assert userIds[..|userIds|] == userIds;
      result := Ok(sent);
    }
  }
}
