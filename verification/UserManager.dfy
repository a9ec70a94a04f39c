/** The directory of one server: which server every online user is on. */
module Users {
  import opened Bytes
  import opened Sets

  class UserManager {
    const localServerId: int
    var locations: map<Text, int>

    constructor (localServerId: int)
      ensures this.localServerId == localServerId
      ensures locations == map[]
    {
      this.localServerId := localServerId;
      locations := map[];
    }

    method RegisterUser(username: Text, serverId: int)
      modifies this
      ensures locations == old(locations)[username := serverId]
    {
      locations := locations[username := serverId];
    }

    method UnregisterUser(username: Text)
      modifies this
      ensures locations == old(locations) - {username}
    {
      locations := locations - {username};
    }

    function GetUserLocation(username: Text): int
      reads this
    {
      if username in locations then locations[username] else -1
    }

    predicate IsUserOnline(username: Text)
      reads this
    {
      username in locations
    }

    /** Erases while it iterates: the iteration is over the keys not yet visited. */
    method ClearServerUsers(serverId: int)
      modifies this
      ensures locations == map u | u in old(locations) && old(locations)[u] != serverId :: old(locations)[u]
    {
      var ahead := locations.Keys;
      while ahead != {}
        invariant ahead <= locations.Keys <= old(locations).Keys
        invariant forall u <- old(locations) ::
          u in locations <==> (u in ahead || old(locations)[u] != serverId)
        invariant forall u <- locations :: locations[u] == old(locations)[u]
        decreases |ahead|
      {
        ghost var witnessed := Any(ahead);
        var u :| u in ahead;
        ahead := ahead - {u};
        if locations[u] == serverId {
          locations := locations - {u};
        }
      }
    }

    method GetOnlineUsers() returns (users: seq<Text>)
      ensures Lists(users, locations.Keys)
    {
      users := [];
      var ahead := locations.Keys;
      while ahead != {}
        invariant ahead <= locations.Keys
        invariant Lists(users, locations.Keys - ahead)
        decreases |ahead|
      {
        ghost var witnessed := Any(ahead);
        var u :| u in ahead;
        ahead := ahead - {u};
        users := users + [u];
      }
    }
  }
}
