/**
 * The room server's module state and the operations that change it in
 * place: a `Room` holds the configuration read at start-up and the three
 * lists the server mutates (`items`, `client_list`, `connections`).
 */
module RoomServer {
  import opened Wrappers
  import opened PyStr
  import opened Registry
  import opened Render
  import opened Commands

  class Room {
    const name: string
    const description: string
    const adjacent: seq<Adjacency>
    var items: seq<string>
    var clients: seq<Registration>
    var connections: seq<ConnId>

    /** The room as `summarize_room` and `server_get_room` see it. */
    function Cfg(): Config
    {
      Config(name, description, adjacent)
    }

    /** The room's three mutable lists. */
    function Lists(): State
      reads this
    {
      State(items, clients, connections)
    }

    /** A room as the server starts it: configured items, nobody registered, no connections. */
    constructor (name: string, description: string, items: seq<string>, adjacent: seq<Adjacency>)
      ensures this.name == name && this.description == description && this.adjacent == adjacent
      ensures this.items == items && clients == [] && connections == []
    {
      this.name := name;
      this.description := description;
      this.adjacent := adjacent;
      this.items := items;
      clients := [];
      connections := [];
    }

    /** `client_search(player)`: a front-to-back scan of the registry. */
    method ClientSearch(player: string) returns (address: Option<Addr>)
      ensures address == Search(clients, player)
    {
      var i := 0;
      while i < |clients|
        invariant 0 <= i <= |clients|
        invariant Search(clients, player) == Search(clients[i..], player)
      {
        if clients[i].player == player {
          return Some(clients[i].address);
        }
        assert clients[i..][1..] == clients[i + 1..];
        i := i + 1;
      }
      return None;
    }

    /** `client_search_by_address(address)`: the same scan, matching addresses. */
    method ClientSearchByAddress(address: Addr) returns (player: Option<string>)
      ensures player == SearchByAddress(clients, address)
    {
      var i := 0;
      while i < |clients|
        invariant 0 <= i <= |clients|
        invariant SearchByAddress(clients, address) == SearchByAddress(clients[i..], address)
      {
        if clients[i].address == address {
          return Some(clients[i].player);
        }
        assert clients[i..][1..] == clients[i + 1..];
        i := i + 1;
      }
      return None;
    }

    /** `client_add(player, address)`: one registration appended, nothing else changes. */
    method ClientAdd(player: string, address: Addr)
      modifies this
      ensures clients == old(clients) + [Registration(player, address)]
      ensures items == old(items) && connections == old(connections)
    {
      clients := clients + [Registration(player, address)];
    }

    /**
     * `client_remove(player)`: the scan stops at the first registration
     * named `player` and `list.remove`s it; without one nothing changes.
     */
    method ClientRemove(player: string)
      modifies this
      ensures clients == RemoveNamed(old(clients), player)
      ensures items == old(items) && connections == old(connections)
    {
      var i := 0;
      while i < |clients|
        invariant 0 <= i <= |clients|
        invariant clients == old(clients)
        invariant forall j :: 0 <= j < i ==> clients[j].player != player
      {
        if clients[i].player == player {
          RemoveFirstOfFirstNamed(clients, player, i);
          clients := RemoveFirst(clients, clients[i]);
          return;
        }
        i := i + 1;
      }
    }

    /** The `for client in connections: if client is not issuer: client.send(text)` loop. */
    method SendToOthers(issuer: ConnId, text: string) returns (sent: seq<Send>)
      ensures sent == Broadcast(connections, issuer, text)
    {
      sent := [];
      var i := 0;
      while i < |connections|
        invariant 0 <= i <= |connections|
        invariant sent == Broadcast(connections[..i], issuer, text)
      {
        assert connections[..i + 1][..i] == connections[..i];
        if connections[i] != issuer {
          sent := sent + [Send(connections[i], text)];
        }
        i := i + 1;
      }
      assert connections[..i] == connections;
    }

    /**
     * `process_message(conn, addr)` on the received text `message`: the
     * lists are updated in place, `outbox` holds every send in order,
     * `closed` says whether the issuer's connection was closed and `error`
     * which exception escaped. The whole effect is `Dispatch`, whose
     * properties are proved in the Commands module.
     */
    method ProcessMessage(conn: ConnId, addr: Addr, message: string)
      returns (outbox: seq<Send>, closed: bool, error: Option<PyError>)
      modifies this
      ensures Reply(Lists(), outbox, closed, error) == Dispatch(Cfg(), old(Lists()), conn, addr, message)
    {
      outbox, closed, error := [], false, None;
      var words := Words(message);
      if |words| == 0 {
        error := Some(IndexError);
      } else if words[0] == "join" {
        if |words| == 2 {
          ClientAdd(words[1], addr);
          connections := connections + [conn];
          var who := ClientSearchByAddress(addr);
          var response := "User " + Show(who) + " entered the room.";
          outbox := SendToOthers(conn, response);
          outbox := outbox + [Send(conn, DropLast(Summary(Cfg(), items)))];
        } else {
          outbox := [Send(conn, InvalidCommand)];
        }
      } else if message == "exit" {
        var who := ClientSearchByAddress(addr);
        var response := "User " + Show(who) + " has left the server";
        if who.Some? {
          ClientRemove(who.value);
        }
        if conn !in connections {
          error := Some(ValueError);
          return;
        }
        connections := RemoveFirst(connections, conn);
        outbox := SendToOthers(conn, response);
        outbox := outbox + [Send(conn, "Goodbye")];
        closed := true;
      } else if message == "look" {
        error := Some(TypeError);
      } else if words[0] == "take" {
        if |words| == 2 {
          if words[1] in items {
            items := RemoveFirst(items, words[1]);
            outbox := [Send(conn, words[1] + Taken)];
          } else {
            outbox := [Send(conn, words[1] + CannotTake)];
          }
        } else {
          outbox := [Send(conn, InvalidCommand)];
        }
      } else if words[0] == "drop" {
        if |words| == 2 {
          items := items + [words[1]];
          outbox := [Send(conn, words[1] + Dropped)];
        } else {
          outbox := [Send(conn, InvalidCommand)];
        }
      } else if words[0] == "say" {
        var who := ClientSearchByAddress(addr);
        var text := Slice(message, 4, -1);
        var msg := Show(who) + " said \"" + text + "\"";
        outbox := SendToOthers(conn, msg);
        outbox := outbox + [Send(conn, "You said \"" + text + "\".")];
      } else if Upper(words[0]) in Directions {
        // The neighbour's answer is computed and dropped.
        var _ := ServerGetRoom(adjacent, words[0]);
      } else {
        outbox := [Send(conn, InvalidCommand)];
      }
    }
  }
}
