/** The room tables of one server: its own members of every room and the servers that
    have announced members. */
module ChatRooms {
  import opened Bytes
  import opened Nodes
  import opened Sets

  class ChatRoomManager {
    var rooms: map<Text, Room>

    constructor ()
      ensures rooms == map[]
    {
      rooms := map[];
    }

    ghost function Local(room: Text): set<Text>
      reads this
    {
      if room in rooms then rooms[room].local else {}
    }

    function GetRemoteServers(room: Text): set<int>
      reads this
    {
      if room in rooms then rooms[room].remote else {}
    }

    /** `operator[]` makes an entry where there is none. */
    method Entry(room: Text) returns (entry: Room)
      modifies this
      ensures entry == Room(old(Local(room)), old(GetRemoteServers(room)))
      ensures rooms == old(rooms)[room := entry]
    {
      if room !in rooms {
        rooms := rooms[room := Room({}, {})];
      }
      entry := rooms[room];
    }

    method JoinRoomLocal(room: Text, username: Text)
      modifies this
      ensures rooms == old(rooms)[room := Room(old(Local(room)) + {username}, old(GetRemoteServers(room)))]
    {
      var entry := Entry(room);
      rooms := rooms[room := entry.(local := entry.local + {username})];
    }

    method LeaveRoomLocal(room: Text, username: Text)
      modifies this
      ensures room !in old(rooms) ==> rooms == old(rooms)
      ensures room in old(rooms) ==>
                rooms == old(rooms)[room := Room(old(Local(room)) - {username}, old(GetRemoteServers(room)))]
    {
      if room in rooms {
        rooms := rooms[room := rooms[room].(local := rooms[room].local - {username})];
      }
    }

    method JoinRoomRemote(room: Text, serverId: int)
      modifies this
      ensures rooms == old(rooms)[room := Room(old(Local(room)), old(GetRemoteServers(room)) + {serverId})]
    {
      var entry := Entry(room);
      rooms := rooms[room := entry.(remote := entry.remote + {serverId})];
    }

    method LeaveRoomRemote(room: Text, serverId: int)
      modifies this
      ensures room !in old(rooms) ==> rooms == old(rooms)
      ensures room in old(rooms) ==>
                rooms == old(rooms)[room := Room(old(Local(room)), old(GetRemoteServers(room)) - {serverId})]
    {
      if room in rooms {
        rooms := rooms[room := rooms[room].(remote := rooms[room].remote - {serverId})];
      }
    }

    method GetLocalMembers(room: Text) returns (members: seq<Text>)
      ensures Lists(members, Local(room))
    {
      members := [];
      if room in rooms {
        var ahead := rooms[room].local;
        while ahead != {}
          invariant ahead <= Local(room)
          invariant Lists(members, Local(room) - ahead)
          decreases |ahead|
        {
          ghost var witnessed := Any(ahead);
          var u :| u in ahead;
          ahead := ahead - {u};
          members := members + [u];
        }
      }
    }

    /** Erases one server from every room, room by room. */
    method ClearServerMemberships(serverId: int)
      modifies this
      ensures rooms == map r | r in old(rooms) :: old(rooms)[r].(remote := old(rooms)[r].remote - {serverId})
    {
      var ahead := rooms.Keys;
      while ahead != {}
        invariant ahead <= rooms.Keys == old(rooms).Keys
        invariant forall r <- ahead :: rooms[r] == old(rooms)[r]
        invariant forall r <- rooms | r !in ahead ::
          rooms[r] == old(rooms)[r].(remote := old(rooms)[r].remote - {serverId})
        decreases |ahead|
      {
        ghost var witnessed := Any(ahead);
        var r :| r in ahead;
        ahead := ahead - {r};
        rooms := rooms[r := rooms[r].(remote := rooms[r].remote - {serverId})];
      }
    }
  }
}
