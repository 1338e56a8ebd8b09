/**
 * What one call of `process_message` does, as a function of the room's
 * lists before the call, the issuing connection, the address it was called
 * with and the text received: the lists after the call, the texts sent (in
 * order, each to one connection), whether the issuer's connection was
 * closed, and the exception that escaped, if one did.
 *
 * `Room.ProcessMessage` in the RoomServer module is the in-place version
 * and is proved to produce exactly `Dispatch`.
 */
module Commands {
  import opened Wrappers
  import opened PyStr
  import opened Registry
  import opened Render

  /** A player connection; the source tells connections apart by identity (`is`). */
  type ConnId = nat

  /** The room's mutable lists: `items`, `client_list` and `connections`. */
  datatype State = State(items: seq<string>, clients: seq<Registration>, connections: seq<ConnId>)

  /** One `send` on a connection. */
  datatype Send = Send(to: ConnId, text: string)

  /** The exceptions that escape `process_message`. */
  datatype PyError =
    | IndexError   // `words[0]` of a message with no words
    | TypeError    // `summary += get_other_players(addr)`, which is `None`
    | ValueError   // `connections.remove(connection)` of a connection never added

  /** The outcome of one call. */
  datatype Reply = Reply(state: State, outbox: seq<Send>, closed: bool, error: Option<PyError>)

  const InvalidCommand := "Invalid command"
  const Taken := " taken"
  const CannotTake := " cannot be taken in this room"
  const Dropped := " dropped"

  /** `'{}'.format(x)` for a name or `None`. */
  function Show(name: Option<string>): string
  {
    match name
    case Some(n) => n
    case None => "None"
  }

  /**
   * `for client in connections: if client is not issuer: client.send(text)`:
   * one send to every listed connection other than the issuer, in list order.
   */
  function Broadcast(connections: seq<ConnId>, issuer: ConnId, text: string): (r: seq<Send>)
    ensures forall k :: 0 <= k < |r| ==> r[k].to in connections && r[k].to != issuer && r[k].text == text
    ensures forall c :: c in connections && c != issuer ==> Send(c, text) in r
    ensures forall c :: multiset(r)[Send(c, text)] == if c == issuer then 0 else multiset(connections)[c]
    decreases |connections|
  {
    if connections == [] then []
    else
      var init, last := connections[..|connections| - 1], connections[|connections| - 1];
      assert connections == init + [last];
      var rest := Broadcast(init, issuer, text);
      var sent := if last != issuer then [Send(last, text)] else [];
      assert multiset(rest + sent) == multiset(rest) + multiset(sent);
      assert multiset(connections) == multiset(init) + multiset{last};
      rest + sent
  }

  function Invalid(st: State, conn: ConnId): (r: Reply)
    ensures r.error.None? && !r.closed && r.outbox != [] && r.outbox[|r.outbox| - 1].to == conn
    ensures r.state == st
  {
    Reply(st, [Send(conn, InvalidCommand)], false, None)
  }

  function Join(cfg: Config, st: State, conn: ConnId, addr: Addr, words: seq<string>): (r: Reply)
    ensures r.error.None? && !r.closed && r.outbox != [] && r.outbox[|r.outbox| - 1].to == conn
    ensures r.state.items == st.items
  {
    if |words| == 2 then
      var clients := st.clients + [Registration(words[1], addr)];
      var connections := st.connections + [conn];
      var response := "User " + Show(SearchByAddress(clients, addr)) + " entered the room.";
      Reply(State(st.items, clients, connections),
            Broadcast(connections, conn, response) + [Send(conn, DropLast(Summary(cfg, st.items)))],
            false, None)
    else Invalid(st, conn)
  }

  function Exit(st: State, conn: ConnId, addr: Addr): (r: Reply)
    ensures r.closed <==> r.error.None?
    ensures r.error.Some? ==> r.outbox == [] && r.state.connections == st.connections
    ensures r.closed ==> r.outbox != [] && r.outbox[|r.outbox| - 1].to == conn
    ensures r.state.items == st.items
  {
    var who := SearchByAddress(st.clients, addr);
    var response := "User " + Show(who) + " has left the server";
    // `client_remove(None)` finds no registration named None and does nothing.
    var clients := if who.Some? then RemoveNamed(st.clients, who.value) else st.clients;
    if conn !in st.connections then
      Reply(State(st.items, clients, st.connections), [], false, Some(ValueError))
    else
      var connections := RemoveFirst(st.connections, conn);
      Reply(State(st.items, clients, connections),
            Broadcast(connections, conn, response) + [Send(conn, "Goodbye")],
            true, None)
  }

  function Take(st: State, conn: ConnId, words: seq<string>): (r: Reply)
    ensures r.error.None? && !r.closed && r.outbox != [] && r.outbox[|r.outbox| - 1].to == conn
    ensures r.state.clients == st.clients && r.state.connections == st.connections
  {
    if |words| == 2 then
      if words[1] in st.items then
        Reply(st.(items := RemoveFirst(st.items, words[1])), [Send(conn, words[1] + Taken)], false, None)
      else
        Reply(st, [Send(conn, words[1] + CannotTake)], false, None)
    else Invalid(st, conn)
  }

  function Drop(st: State, conn: ConnId, words: seq<string>): (r: Reply)
    ensures r.error.None? && !r.closed && r.outbox != [] && r.outbox[|r.outbox| - 1].to == conn
    ensures r.state.clients == st.clients && r.state.connections == st.connections
  {
    if |words| == 2 then
      Reply(st.(items := st.items + [words[1]]), [Send(conn, words[1] + Dropped)], false, None)
    else Invalid(st, conn)
  }

  function Say(st: State, conn: ConnId, addr: Addr, message: string): (r: Reply)
    ensures r.error.None? && !r.closed && r.outbox != [] && r.outbox[|r.outbox| - 1].to == conn
    ensures r.state == st
  {
    var text := Slice(message, 4, -1);
    var msg := Show(SearchByAddress(st.clients, addr)) + " said \"" + text + "\"";
    Reply(st, Broadcast(st.connections, conn, msg) + [Send(conn, "You said \"" + text + "\".")], false, None)
  }

  /**
   * `process_message(connection, addr)` on the received text `message`.
   * `join`, `take`, `drop`, `say` and the directions are recognised by the
   * first word; `exit` and `look` only when they are the whole message.
   */
  function Dispatch(cfg: Config, st: State, conn: ConnId, addr: Addr, message: string): (r: Reply)
    ensures r.error.Some? ==> r.outbox == [] && !r.closed && r.state.items == st.items
    ensures r.closed ==> message == "exit" && r.error.None?
    ensures r.outbox != [] ==> r.outbox[|r.outbox| - 1].to == conn
    ensures r.error.None? && r.outbox == [] ==> r.state == st
  {
    var words := Words(message);
    if |words| == 0 then Reply(st, [], false, Some(IndexError))
    else if words[0] == "join" then Join(cfg, st, conn, addr, words)
    else if message == "exit" then Exit(st, conn, addr)
    else if message == "look" then Reply(st, [], false, Some(TypeError))
    else if words[0] == "take" then Take(st, conn, words)
    else if words[0] == "drop" then Drop(st, conn, words)
    else if words[0] == "say" then Say(st, conn, addr, message)
    // The movement branch computes `server_get_room(words[0])` and sends nothing.
    else if Upper(words[0]) in Directions then Reply(st, [], false, None)
    else Invalid(st, conn)
  }

  // ---------------------------------------------------------------------------
  // Properties

  lemma RawCommandWords()
    ensures Words("exit") == ["exit"] && Words("look") == ["look"]
  {
    assert Unwords(["exit"]) == "exit";
    assert Unwords(["look"]) == "look";
    WordsUnwords(["exit"]);
    WordsUnwords(["look"]);
  }

  /** A message with no words (empty, or only whitespace) raises `IndexError` before anything happens. */
  lemma NoWordsRaises(cfg: Config, st: State, conn: ConnId, addr: Addr, message: string)
    requires AllSpace(message)
    ensures Dispatch(cfg, st, conn, addr, message) == Reply(st, [], false, Some(IndexError))
  {
    WordsEmpty(message);
  }

  /**
   * `take w` of an item that is present removes its first occurrence and
   * nothing else, and answers "w taken" to the issuer only.
   */
  lemma TakePresent(cfg: Config, st: State, conn: ConnId, addr: Addr, message: string, w: string)
    requires Words(message) == ["take", w] && w in st.items
    ensures var r := Dispatch(cfg, st, conn, addr, message);
            && r.outbox == [Send(conn, w + Taken)] && !r.closed && r.error.None?
            && r.state.clients == st.clients && r.state.connections == st.connections
            && multiset(r.state.items) == multiset(st.items) - multiset{w}
            && forall i :: FirstAt(st.items, w, i) ==> r.state.items == st.items[..i] + st.items[i + 1..]
  {
    RawCommandWords();
    RemoveFirstMultiset(st.items, w);
    forall i | FirstAt(st.items, w, i) ensures RemoveFirst(st.items, w) == st.items[..i] + st.items[i + 1..] {
      RemoveFirstAt(st.items, w, i);
    }
  }

  /** `take w` of an absent item changes nothing and answers that it cannot be taken. */
  lemma TakeAbsent(cfg: Config, st: State, conn: ConnId, addr: Addr, message: string, w: string)
    requires Words(message) == ["take", w] && w !in st.items
    ensures Dispatch(cfg, st, conn, addr, message)
         == Reply(st, [Send(conn, w + CannotTake)], false, None)
  {
    RawCommandWords();
  }

  /** `drop w` appends `w` whether or not it was ever in the room, and answers "w dropped". */
  lemma DropAppends(cfg: Config, st: State, conn: ConnId, addr: Addr, message: string, w: string)
    requires Words(message) == ["drop", w]
    ensures Dispatch(cfg, st, conn, addr, message)
         == Reply(st.(items := st.items + [w]), [Send(conn, w + Dropped)], false, None)
  {
    RawCommandWords();
  }

  /**
   * `take w` of a present item followed by `drop w` leaves the room's items
   * the same as a multiset (the item moves to the end of the list), and
   * leaves the registry and the connections as they were.
   */
  lemma TakeThenDrop(cfg: Config, st: State, c1: ConnId, a1: Addr, m1: string,
                     c2: ConnId, a2: Addr, m2: string, w: string)
    requires Words(m1) == ["take", w] && Words(m2) == ["drop", w] && w in st.items
    ensures var after := Dispatch(cfg, Dispatch(cfg, st, c1, a1, m1).state, c2, a2, m2).state;
            && multiset(after.items) == multiset(st.items)
            && after.clients == st.clients && after.connections == st.connections
  {
    TakePresent(cfg, st, c1, a1, m1, w);
    var mid := Dispatch(cfg, st, c1, a1, m1).state;
    DropAppends(cfg, mid, c2, a2, m2, w);
    assert multiset(mid.items + [w]) == multiset(mid.items) + multiset{w};
  }

  /** `join`, `take` or `drop` without exactly one argument: "Invalid command" to the issuer, nothing else. */
  lemma WrongArity(cfg: Config, st: State, conn: ConnId, addr: Addr, message: string)
    requires var words := Words(message);
             |words| > 0 && words[0] in ["join", "take", "drop"] && |words| != 2
    ensures Dispatch(cfg, st, conn, addr, message) == Reply(st, [Send(conn, InvalidCommand)], false, None)
  {
    RawCommandWords();
  }

  /**
   * `join n` appends the registration `(n, addr)` and the connection, even
   * when `n` is already registered. Every other listed connection is told
   * "User x entered the room.", where x is `n` unless `addr` was already
   * registered (then it is the earlier name). The issuer then gets the
   * summary without its final newline.
   */
  lemma JoinRegisters(cfg: Config, st: State, conn: ConnId, addr: Addr, message: string, n: string)
    requires Words(message) == ["join", n]
    ensures var r := Dispatch(cfg, st, conn, addr, message);
            var who := SearchByAddress(st.clients, addr);
            var text := "User " + (if who.Some? then who.value else n) + " entered the room.";
            && r.error.None? && !r.closed
            && r.state == State(st.items, st.clients + [Registration(n, addr)], st.connections + [conn])
            && |r.state.clients| == |st.clients| + 1
            && |r.outbox| > 0 && r.outbox[|r.outbox| - 1] == Send(conn, DropLast(Summary(cfg, st.items)))
            && DropLast(Summary(cfg, st.items)) + "\n" == Summary(cfg, st.items)
            && (forall k :: 0 <= k < |r.outbox| - 1 ==>
                  r.outbox[k].to in st.connections && r.outbox[k].to != conn && r.outbox[k].text == text)
            && (forall c :: c in st.connections && c != conn ==> Send(c, text) in r.outbox)
  {
    SearchByAddressAfterAdd(st.clients, n, addr);
    SummaryDropLast(cfg, st.items);
    var r := Dispatch(cfg, st, conn, addr, message);
    var text := "User " + Show(SearchByAddress(st.clients + [Registration(n, addr)], addr)) + " entered the room.";
    var b := Broadcast(st.connections + [conn], conn, text);
    assert r.outbox == b + [Send(conn, DropLast(Summary(cfg, st.items)))];
    forall c | c in st.connections && c != conn ensures Send(c, text) in r.outbox {
      assert Send(c, text) in b;
    }
  }

  /** A broadcast followed by the issuer's own answer reaches each other connection once per listed occurrence. */
  lemma BroadcastThenAnswer(connections: seq<ConnId>, conn: ConnId, text: string, answer: string)
    ensures forall c :: c != conn ==>
              multiset(Broadcast(connections, conn, text) + [Send(conn, answer)])[Send(c, text)] == multiset(connections)[c]
  {
    var b := Broadcast(connections, conn, text);
    assert multiset(b + [Send(conn, answer)]) == multiset(b) + multiset{Send(conn, answer)};
  }

  /** `join n` tells each other connection about the newcomer exactly as often as it is listed. */
  lemma JoinTellsOnce(cfg: Config, st: State, conn: ConnId, addr: Addr, message: string, n: string)
    requires Words(message) == ["join", n]
    ensures var r := Dispatch(cfg, st, conn, addr, message);
            var text := "User " + Show(SearchByAddress(st.clients + [Registration(n, addr)], addr)) + " entered the room.";
            forall c :: c != conn ==> multiset(r.outbox)[Send(c, text)] == multiset(st.connections)[c]
  {
    var text := "User " + Show(SearchByAddress(st.clients + [Registration(n, addr)], addr)) + " entered the room.";
    BroadcastThenAnswer(st.connections + [conn], conn, text, DropLast(Summary(cfg, st.items)));
    assert multiset(st.connections + [conn]) == multiset(st.connections) + multiset{conn};
  }

  /** A name already registered is registered again by `join`: the registry holds it twice. */
  lemma JoinDuplicateName(cfg: Config, st: State, conn: ConnId, addr: Addr, message: string, n: string)
    requires Words(message) == ["join", n] && Search(st.clients, n).Some?
    ensures var clients := Dispatch(cfg, st, conn, addr, message).state.clients;
            exists i, j :: 0 <= i < j < |clients| && clients[i].player == n && clients[j].player == n
  {
    var clients := Dispatch(cfg, st, conn, addr, message).state.clients;
    var i :| FirstNamedAt(st.clients, n, i) && st.clients[i].address == Search(st.clients, n).value;
    assert clients[i].player == n && clients[|st.clients|].player == n;
  }

  /**
   * `exit` from a joined connection: the name x first registered with the
   * caller's address is looked up, and the first registration NAMED x goes
   * (which may carry another address, see `ExitSharedNameRemovesOther`); one
   * occurrence of the connection goes; every other listed connection is
   * told "User x has left the server", once per listed occurrence; the
   * issuer gets "Goodbye" and its connection is closed.
   */
  lemma ExitLeaves(cfg: Config, st: State, conn: ConnId, addr: Addr)
    requires conn in st.connections
    ensures var r := Dispatch(cfg, st, conn, addr, "exit");
            var who := SearchByAddress(st.clients, addr);
            var text := "User " + Show(who) + " has left the server";
            && r.error.None? && r.closed && r.state.items == st.items
            && r.state.clients == (if who.Some? then RemoveNamed(st.clients, who.value) else st.clients)
            && r.state.connections == RemoveFirst(st.connections, conn)
            && multiset(r.state.connections) == multiset(st.connections) - multiset{conn}
            && |r.outbox| > 0 && r.outbox[|r.outbox| - 1] == Send(conn, "Goodbye")
            && (forall k :: 0 <= k < |r.outbox| - 1 ==>
                  r.outbox[k].to in r.state.connections && r.outbox[k].to != conn && r.outbox[k].text == text)
            && (forall c :: c in r.state.connections && c != conn ==> Send(c, text) in r.outbox)
  {
    RawCommandWords();
    RemoveFirstMultiset(st.connections, conn);
    var r := Dispatch(cfg, st, conn, addr, "exit");
    var text := "User " + Show(SearchByAddress(st.clients, addr)) + " has left the server";
    var b := Broadcast(r.state.connections, conn, text);
    assert r.outbox == b + [Send(conn, "Goodbye")];
    forall c | c in r.state.connections && c != conn ensures Send(c, text) in r.outbox {
      assert Send(c, text) in b;
    }
  }

  /** `exit` tells each other connection that the player left exactly as often as it is listed. */
  lemma ExitTellsOnce(cfg: Config, st: State, conn: ConnId, addr: Addr)
    requires conn in st.connections
    ensures var r := Dispatch(cfg, st, conn, addr, "exit");
            var text := "User " + Show(SearchByAddress(st.clients, addr)) + " has left the server";
            forall c :: c != conn ==> multiset(r.outbox)[Send(c, text)] == multiset(st.connections)[c]
  {
    RawCommandWords();
    RemoveFirstMultiset(st.connections, conn);
    var text := "User " + Show(SearchByAddress(st.clients, addr)) + " has left the server";
    BroadcastThenAnswer(RemoveFirst(st.connections, conn), conn, text, "Goodbye");
  }

  /**
   * Two players registered from one address: whoever of them exits, the
   * first one's registration goes and the room is told the first one left.
   */
  lemma ExitSharedAddressRemovesFirst(cfg: Config, st: State, conn: ConnId, a: string, b: string, x: Addr)
    requires conn in st.connections && st.clients == [Registration(a, x), Registration(b, x)]
    ensures var r := Dispatch(cfg, st, conn, x, "exit");
            r.state.clients == [Registration(b, x)]
            && forall k :: 0 <= k < |r.outbox| - 1 ==> r.outbox[k].text == "User " + a + " has left the server"
  {
    ExitLeaves(cfg, st, conn, x);
    assert st.clients[1..] == [Registration(b, x)];
  }

  /**
   * One name registered from two addresses: an exit from the second
   * address removes the registration made from the first.
   */
  lemma ExitSharedNameRemovesOther(cfg: Config, st: State, conn: ConnId, n: string, x: Addr, y: Addr)
    requires conn in st.connections && x != y
    requires st.clients == [Registration(n, y), Registration(n, x)]
    ensures Dispatch(cfg, st, conn, x, "exit").state.clients == [Registration(n, x)]
  {
    ExitLeaves(cfg, st, conn, x);
    assert SearchByAddress(st.clients, x) == Some(n) by {
      assert st.clients[1..] == [Registration(n, x)];
    }
    assert st.clients[1..] == [Registration(n, x)];
  }

  /**
   * `exit` from a connection that never joined raises `ValueError` at
   * `connections.remove`, after `client_remove` has already run, and sends nothing.
   */
  lemma ExitNotJoinedRaises(cfg: Config, st: State, conn: ConnId, addr: Addr)
    requires conn !in st.connections
    ensures var r := Dispatch(cfg, st, conn, addr, "exit");
            var who := SearchByAddress(st.clients, addr);
            && r.error == Some(ValueError) && r.outbox == [] && !r.closed
            && r.state.connections == st.connections && r.state.items == st.items
            && r.state.clients == (if who.Some? then RemoveNamed(st.clients, who.value) else st.clients)
  {
    RawCommandWords();
  }

  /**
   * `look` always raises `TypeError`: `get_other_players` returns `None`,
   * which cannot be appended to the summary. Nothing is sent and nothing changes.
   */
  lemma LookRaises(cfg: Config, st: State, conn: ConnId, addr: Addr)
    ensures Dispatch(cfg, st, conn, addr, "look") == Reply(st, [], false, Some(TypeError))
  {
    RawCommandWords();
  }

  /** The command words, upper-cased. */
  lemma UpperCommandWords()
    ensures Upper("join") == "JOIN" && Upper("take") == "TAKE" && Upper("drop") == "DROP"
    ensures Upper("say") == "SAY" && Upper("exit") == "EXIT" && Upper("look") == "LOOK"
  {
    UpperJoin(); UpperTake(); UpperDrop();
    UpperSay(); UpperExit(); UpperLook();
  }

  /** One lemma per command word keeps each proof about a literal small. */
  lemma UpperJoin()
    ensures Upper("join") == "JOIN"
  {
    UpperIs("join", "JOIN");
  }

  lemma UpperTake()
    ensures Upper("take") == "TAKE"
  {
    UpperIs("take", "TAKE");
  }

  lemma UpperDrop()
    ensures Upper("drop") == "DROP"
  {
    UpperIs("drop", "DROP");
  }

  lemma UpperSay()
    ensures Upper("say") == "SAY"
  {
    UpperIs("say", "SAY");
  }

  lemma UpperExit()
    ensures Upper("exit") == "EXIT"
  {
    UpperIs("exit", "EXIT");
  }

  lemma UpperLook()
    ensures Upper("look") == "LOOK"
  {
    UpperIs("look", "LOOK");
  }

  /** No command word upper-cases to a direction. */
  lemma DirectionIsNoCommand(d: string)
    requires Upper(d) in Directions
    ensures d != "join" && d != "take" && d != "drop" && d != "say" && d != "exit" && d != "look"
  {
    UpperCommandWords();
    UpperCommandsNoDirections();
  }

  lemma UpperCommandsNoDirections()
    ensures "JOIN" !in Directions && "TAKE" !in Directions && "DROP" !in Directions
    ensures "SAY" !in Directions && "EXIT" !in Directions && "LOOK" !in Directions
  {
  }

  /**
   * A message whose first word is a direction computes the neighbour's
   * answer but sends nothing and changes nothing, whatever words follow.
   */
  lemma MoveIsSilent(cfg: Config, st: State, conn: ConnId, addr: Addr, message: string, d: string)
    requires |Words(message)| > 0 && Words(message)[0] == d && Upper(d) in Directions
    ensures Dispatch(cfg, st, conn, addr, message) == Reply(st, [], false, None)
  {
    RawCommandWords();
    DirectionIsNoCommand(d);
  }

  /** "north now" is a silent move too: only the first word is looked at. */
  lemma MoveWithMoreWordsIsSilent(cfg: Config, st: State, conn: ConnId, addr: Addr, message: string)
    requires Words(message) == ["north", "now"]
    ensures Dispatch(cfg, st, conn, addr, message) == Reply(st, [], false, None)
  {
    UpperIs("north", "NORTH");
    MoveIsSilent(cfg, st, conn, addr, message, "north");
  }

  /**
   * `upper()` is Python's full upper case, so a long s or an "st" ligature
   * spells a direction too: "\u017fouth", "we\ufb05" and "ea\ufb06" are moves.
   */
  lemma LookalikeMoveIsSilent(cfg: Config, st: State, conn: ConnId, addr: Addr, message: string, d: string)
    requires |Words(message)| > 0 && Words(message)[0] == d
    requires d == "\U{17F}outh" || d == "we\U{FB05}" || d == "ea\U{FB06}"
    ensures Dispatch(cfg, st, conn, addr, message) == Reply(st, [], false, None)
  {
    UpperLongS();
    UpperLongSTLigature();
    UpperSTLigature();
    MoveIsSilent(cfg, st, conn, addr, message, d);
  }

  /**
   * A message whose only word is `exit` or `look` but which is not exactly
   * that word (a trailing newline, say) is neither command: the
   * whole-message comparisons fail, the word is no other command, and the
   * answer is "Invalid command".
   */
  lemma RawCommandNotWhole(cfg: Config, st: State, conn: ConnId, addr: Addr, message: string)
    requires Words(message) == ["exit"] || Words(message) == ["look"]
    requires message != "exit" && message != "look"
    ensures Dispatch(cfg, st, conn, addr, message) == Reply(st, [Send(conn, InvalidCommand)], false, None)
  {
    var w := Words(message)[0];
    UpperCommandWords();
    UpperCommandsNoDirections();
    assert Upper(w) !in Directions;
    UnknownWordInvalid(cfg, st, conn, addr, message, w);
  }

  /** "exit" and "look" as a client line, with the newline, split into the bare word. */
  lemma RawCommandLines()
    ensures Words("exit\n") == ["exit"] && "exit\n" != "exit"
    ensures Words("look\n") == ["look"] && "look\n" != "look"
  {
    assert IsWord("exit") && IsWord("look");
    WordOfLine("exit");
    WordOfLine("look");
    assert "exit" + "\n" == "exit\n" && "look" + "\n" == "look\n";
  }

  /** A message whose first word is no command and no direction answers "Invalid command". */
  lemma UnknownWordInvalid(cfg: Config, st: State, conn: ConnId, addr: Addr, message: string, w: string)
    requires |Words(message)| > 0 && Words(message)[0] == w
    requires message != "exit" && message != "look"
    requires w != "join" && w != "take" && w != "drop" && w != "say" && Upper(w) !in Directions
    ensures Dispatch(cfg, st, conn, addr, message) == Reply(st, [Send(conn, InvalidCommand)], false, None)
  {
  }

  /** One word and a newline split into that word. */
  lemma WordOfLine(w: string)
    requires IsWord(w)
    ensures Words(w + "\n") == [w]
  {
    assert Unwords([w]) == w;
    assert AllSpace("\n");
    WordsOfLine([w], "\n");
  }

  /**
   * `say t` followed by one final character (the newline a client sends):
   * every other listed connection gets `x said "t"`, where x is the name
   * first registered from `addr` (or None), and the issuer gets
   * `You said "t".`; nothing changes.
   */
  lemma SaySends(cfg: Config, st: State, conn: ConnId, addr: Addr, t: string, c: char)
    ensures var r := Dispatch(cfg, st, conn, addr, "say " + t + [c]);
            var msg := Show(SearchByAddress(st.clients, addr)) + " said \"" + t + "\"";
            && r.state == st && !r.closed && r.error.None?
            && r.outbox == Broadcast(st.connections, conn, msg) + [Send(conn, "You said \"" + t + "\".")]
  {
    var m := "say " + t + [c];
    assert m == "say" + (" " + t + [c]);
    WordsAppendOne("say", " " + t + [c]);
    SliceMiddle("say ", t, c);
  }

  /**
   * When every registration carries the same address (as the event loop
   * arranges, see README), whoever speaks is named after the first player
   * who joined.
   */
  lemma SaySameAddressNamesFirst(st: State, addr: Addr)
    requires |st.clients| > 0
    requires forall i :: 0 <= i < |st.clients| ==> st.clients[i].address == addr
    ensures Show(SearchByAddress(st.clients, addr)) == st.clients[0].player
  {
  }

  /** Only `join` and `exit` touch the registry and the connection list. */
  lemma RegistryOnlyByJoinExit(cfg: Config, st: State, conn: ConnId, addr: Addr, message: string)
    requires message != "exit"
    requires Words(message) == [] || Words(message)[0] != "join"
    ensures var r := Dispatch(cfg, st, conn, addr, message);
            r.state.clients == st.clients && r.state.connections == st.connections
  {
  }

  /** Only `take` and `drop` touch the items. */
  lemma ItemsOnlyByTakeDrop(cfg: Config, st: State, conn: ConnId, addr: Addr, message: string)
    requires Words(message) == [] || Words(message)[0] !in ["take", "drop"]
    ensures Dispatch(cfg, st, conn, addr, message).state.items == st.items
  {
  }

  /** The room of the hall scenario: no neighbours. */
  const Hall := Config("Hall", "A hall.", [])

  /** Its summary with a key and a torch in it, line by line. */
  lemma HallSummary()
    ensures Lines(Summary(Hall, ["key", "torch"]))
         == ["Hall", "", "A hall.", "", ManyItems, "  key", "  torch"]
  {
    HallOneLine();
    SummaryRead(Hall, ["key", "torch"]);
    HallItemLines();
    assert DoorSentences([]) == [];
    assert SummaryLines(Hall, ["key", "torch"])
        == ["Hall", "", "A hall."] + ([] + ([""] + [ManyItems, "  key", "  torch"]));
  }

  lemma HallOneLine()
    ensures NoNewline(Hall.name) && NoNewline(Hall.description)
    ensures DirectionsOneLine(Hall.adjacent) && AllOneLine(["key", "torch"])
  {
    assert NoNewline("key") && NoNewline("torch");
  }

  lemma HallItemLines()
    ensures ItemSectionLines(["key", "torch"]) == [ManyItems, "  key", "  torch"]
  {
    var ind := Indented(["key", "torch"]);
    assert ind[0] == "  key" && ind[1] == "  torch";
    assert ind == ["  key", "  torch"];
  }

  /** Two command lines of the hall scenario, split. */
  lemma ScenarioWords()
    ensures Words("join Ann") == ["join", "Ann"] && Words("take key") == ["take", "key"]
  {
    assert Unwords(["join", "Ann"]) == "join Ann";
    assert Unwords(["take", "key"]) == "take key";
    WordsUnwords(["join", "Ann"]);
    WordsUnwords(["take", "key"]);
  }

  /** Nobody else to tell. */
  lemma BroadcastAlone(c: ConnId, text: string)
    ensures Broadcast([c], c, text) == []
  {
    assert [c][..0] == [];
  }

  /** Step one of the hall scenario: Ann joins the hall, alone, and gets its summary. */
  lemma AnnJoins(conn: ConnId, addr: Addr, join: string)
    requires Words(join) == ["join", "Ann"]
    ensures Dispatch(Hall, State(["key", "torch"], [], []), conn, addr, join)
         == Reply(State(["key", "torch"], [Registration("Ann", addr)], [conn]),
                  [Send(conn, DropLast(Summary(Hall, ["key", "torch"])))], false, None)
  {
    var st0 := State(["key", "torch"], [], []);
    var r1 := Dispatch(Hall, st0, conn, addr, join);
    var text := "User " + Show(SearchByAddress([Registration("Ann", addr)], addr)) + " entered the room.";
    assert [] + [conn] == [conn];
    BroadcastAlone(conn, text);
    assert r1.outbox == [] + [Send(conn, DropLast(Summary(Hall, ["key", "torch"])))];
  }

  /** Step two: she takes the key. */
  lemma AnnTakes(st: State, conn: ConnId, addr: Addr, take: string)
    requires Words(take) == ["take", "key"] && st.items == ["key", "torch"]
    ensures Dispatch(Hall, st, conn, addr, take)
         == Reply(st.(items := ["torch"]), [Send(conn, "key" + Taken)], false, None)
  {
    TakePresent(Hall, st, conn, addr, take, "key");
    assert FirstAt(st.items, "key", 0);
    assert st.items[..0] + st.items[1..] == ["torch"];
  }

  /** Step three: the key is gone. */
  lemma AnnTakesAgain(st: State, conn: ConnId, addr: Addr, take: string)
    requires Words(take) == ["take", "key"] && st.items == ["torch"]
    ensures Dispatch(Hall, st, conn, addr, take)
         == Reply(st, [Send(conn, "key" + CannotTake)], false, None)
  {
    TakeAbsent(Hall, st, conn, addr, take, "key");
  }

  /**
   * The hall scenario: Ann joins a room holding a key and a torch and is
   * shown the summary; she takes the key (only the torch is left) and then
   * fails to take it again. `join` and `take` stand for any lines that split
   * as "join Ann" and "take key" do (see `ScenarioWords`).
   */
  lemma AnnTakesTheKey(conn: ConnId, addr: Addr, join: string, take: string)
    requires Words(join) == ["join", "Ann"] && Words(take) == ["take", "key"]
    ensures var r1 := Dispatch(Hall, State(["key", "torch"], [], []), conn, addr, join);
            var r2 := Dispatch(Hall, r1.state, conn, addr, take);
            var r3 := Dispatch(Hall, r2.state, conn, addr, take);
            && r1.outbox == [Send(conn, DropLast(Summary(Hall, ["key", "torch"])))]
            && r1.state.clients == [Registration("Ann", addr)]
            && r2.outbox == [Send(conn, "key" + Taken)] && r2.state.items == ["torch"]
            && r3.outbox == [Send(conn, "key" + CannotTake)] && r3.state.items == ["torch"]
  {
    AnnJoins(conn, addr, join);
    var st1 := State(["key", "torch"], [Registration("Ann", addr)], [conn]);
    AnnTakes(st1, conn, addr, take);
    AnnTakesAgain(st1.(items := ["torch"]), conn, addr, take);
  }
}
