# Room server model

A Dafny model of the room server of a small text adventure (`room.py`). One
server process is one room. It has a name, a description, a list of items
lying on the floor and up to six neighbouring rooms. Players connect over
TCP and send one-line commands:

- `join <name>` registers the player and shows them the room.
- `take <item>` and `drop <item>` move items between the floor and the player.
- `say <text>` speaks to the other players in the room.
- `look` and `exit` must make up the whole message.
- A direction word (`north` … `down`) asks about a neighbour.

The server keeps three module-level lists, and this model keeps them too:

- `items`: the floor.
- `client_list`: `(name, address)` registrations, in join order.
- `connections`: the joined sockets.

The model has six modules:

- `Wrappers` (`wrappers.dfy`): the `Option` type that stands for Python's
  `None`-or-value results.
- `PyStr` (`pystr.dfy`): the Python string behaviour the server relies on.
  - `str.split()` with Python's whitespace set.
  - Slices with negative bounds.
  - `upper()`, for every character whose upper case is plain ASCII.
  - `str(int)` for ports.
- `Registry` (`registry.dfy`): the registry helpers `client_search`,
  `client_search_by_address`, `client_remove` (as the function
  `RemoveNamed`) and `list.remove`, as functions over the registration list.
  Lemmas cover first-match search, first-occurrence removal, and search
  after an add.
- `Render` (`render.dfy`): the text renderers.
  - `summarize_room`.
  - The string `get_other_players` builds.
  - `server_get_room`.
  - Each rendered text is related to its list of lines through a `Lines`
    reader and its inverse `Unlines`.
- `Commands` (`commands.dfy`):
  - `Dispatch` is what one call of `process_message` does, as a pure
    function.
  - Its inputs are the three lists, the issuing connection, the address it
    was called with and the received text.
  - Its result is the new lists, the ordered sends (the outbox), whether
    the issuer's connection was closed, and the exception that escaped.
  - The lemmas state each command's effect.
- `RoomServer` (`room.dfy`): a `Room` class.
  - Its fields are the room's configuration and the three lists.
  - Its methods `ClientSearch` and `ClientSearchByAddress` scan the
    registry with the source's loops and change nothing. `ClientAdd`,
    `ClientRemove` and `ProcessMessage` update the lists in place.
  - `ClientSearch`, `ClientSearchByAddress`, `ClientRemove` and the send
    loop `SendToOthers` are each proved equal to their specification
    function. `ClientAdd`'s contract gives the new lists directly.
  - `ProcessMessage` is proved to produce exactly `Dispatch`.

The source's quirks are modelled as written and exhibited by lemmas:

- `exit` and `look` are recognised only when they are the whole received
  text (`message == 'exit'`). A client that sends `exit\n` therefore gets
  "Invalid command" (`RawCommandNotWhole`, `RawCommandLines`).
- A message with no words raises `IndexError` at `words[0]` (`NoWordsRaises`).
- `join` does not check for a duplicate name (`JoinDuplicateName`).
- `get_other_players` builds its text but has no `return`. So `look` always
  raises `TypeError` when it appends `None` to the summary (`LookRaises`).
- A direction command computes `server_get_room` and throws the answer away:
  nothing is sent and nothing changes, whatever words follow the direction
  (`MoveIsSilent`, `MoveWithMoreWordsIsSilent`). Python's `upper()`
  turns a long s into S and the "st" ligatures into ST, so `\u017fouth`,
  `we\ufb05` and `ea\ufb06` are direction commands too
  (`LookalikeMoveIsSilent`).
- `say` quotes `message[4:-1]`, which drops the final character, usually the
  newline (`SaySends`).
- `server_get_room` looks only at the first configured neighbour
  (`ServerGetRoomFirstOnly`, `ServerGetRoomSecondIgnored`). Its refusal
  wording pairs "hatch" with the compass directions and "door" with up and
  down (`ServerGetRoomRefusals`).
- The summary's guard `room[0] != "up" or room[0] != "down"` is always
  true, so the hatch line is never rendered (`HatchNeverRendered`).
- With two registrations, `get_other_players` always uses the "one other
  player" header, yet lists every registration not made from the caller's
  address. A caller holding neither address is given two names
  (`OtherPlayersTwo`, `OtherPlayersOneOtherTwoNames`).
- `exit` looks up the name x first registered from the caller's address and
  then removes the first registration NAMED x. With two players registered
  from one address, whichever exits, the first one's registration goes and
  the room is told the first one left (`ExitSharedAddressRemovesFirst`).
  With one name registered from two addresses, an exit from the second
  address removes the registration made from the first
  (`ExitSharedNameRemovesOther`).
- `exit` from a connection that never joined runs `client_remove` first and
  then raises `ValueError` at `connections.remove` (`ExitNotJoinedRaises`).

Addresses are an integer parameter, `addr`. The event loop at
`room.py:318-320` calls `callback(key.fileobj, mask)`, so the `addr` that
`process_message` receives is the selector's event mask. That value is the
same for every player. In that situation every player is named after the
first registration (`SaySameAddressNamesFirst`), and the other-player listing
is empty (`OtherNamesSameAddress`). The model keeps `addr` free, so it covers
both this behaviour and distinct addresses.

## Model

| member | source | states |
|---|---|---|
| PyStr.Words | room.py:167 | `message.split()` yields only non-empty, whitespace-free words |
| PyStr.WordsEmpty | room.py:167-171 | the split is empty exactly when the message is empty or all whitespace, which is when `words[0]` fails |
| PyStr.WordsUnwords | room.py:167 | splitting words joined by single spaces gives the words back |
| PyStr.WordsOfLine | room.py:167 | a line of words followed by trailing whitespace (such as the newline) splits into just those words |
| PyStr.DropLast | room.py:181 | `s[:-1]` plus the dropped last character is `s`; on `""` it is `""` |
| PyStr.SliceMiddle | room.py:229 | `message[4:-1]` of `"say " + t + c` is exactly `t` |
| PyStr.SliceShort | room.py:229 | `message[4:-1]` of a message of at most five characters is empty |
| PyStr.Upper | room.py:237 | `upper()` leaves no lower-case ASCII letter, and on ASCII text it keeps the length and upper-cases each letter in place |
| PyStr.UpperAppend | room.py:237 | the upper case of a concatenation is the concatenation of the upper cases |
| PyStr.UpperLongS | room.py:237 | a word spelt with a long s upper-cases to SOUTH |
| PyStr.UpperLongSTLigature | room.py:237 | a word ending in the long-s-t ligature upper-cases to WEST |
| PyStr.UpperSTLigature | room.py:237 | a word ending in the s-t ligature upper-cases to EAST |
| PyStr.NatToString | room.py:47 | formatting a port gives a non-empty run of decimal digits with no leading zero and no whitespace |
| PyStr.ParseNatToString | room.py:47 | the formatted port reads back as the port |
| Registry.Search | room.py:57-61 | `None` exactly when no registration has the name; otherwise the address of the first registration with it |
| Registry.SearchByAddress | room.py:66-70 | `None` exactly when no registration has the address; otherwise the name of the first registration with it |
| Registry.RemoveFirst | room.py:210 | `list.remove(x)` of a present `x` shortens the list by one; an absent `x`, where Python raises `ValueError`, is outside its precondition and the callers test membership first (see `Commands.Exit`) |
| Registry.RemoveFirstAt | room.py:210 | the occurrence removed is the first; the others keep their order |
| Registry.RemoveFirstMultiset | room.py:210 | as a multiset, exactly one `x` is removed |
| Registry.RemoveNamed | room.py:82-86 | `client_remove` changes nothing when the name is absent, and otherwise cuts out exactly the first registration with that name |
| Registry.RemoveFirstOfFirstNamed | room.py:83-86 | `client_list.remove(reg)` on the registration the scan stopped at removes that very entry |
| Registry.RemoveNamedCount | room.py:82-86 | removing a registered name shrinks the registry by exactly that one registration |
| Registry.RemoveNamedKeepsLater | room.py:82-86 | a name registered twice is still found after one removal |
| Registry.SearchByAddressAfterAdd | room.py:66-70 | after `client_add`, a search by that address finds the new name unless an earlier registration already used the address |
| Registry.SearchAfterAdd | room.py:57-61 | after `client_add`, a search by that name finds the new address unless the name was already registered |
| Render.DoorwayLine | room.py:103-109 | a neighbour with an empty direction gives no line, and every other neighbour gives the doorway line, never the hatch line |
| Render.Doorways | room.py:102-109 | the neighbour part is empty exactly when every direction is empty, and otherwise ends in a newline |
| Render.ItemLines | room.py:120-121 | at least three characters per item, ending in a newline when there is an item |
| Render.ItemSection | room.py:113-121 | the item part is never empty and ends in a newline |
| Render.Summary | room.py:91-124 | the summary starts with the room's name, is longer than name and description together, and ends in a newline |
| Render.DoorSentences | room.py:102-106 | at most one doorway sentence per neighbour |
| Render.HatchNeverRendered | room.py:103-109 | no neighbour, whatever its direction, is rendered as a hatch |
| Render.DoorwaysAreLines | room.py:102-109 | the neighbour part is one doorway line per neighbour with a non-empty direction, in order |
| Render.ItemLinesAreLines | room.py:118-121 | the itemised part is one indented line per item |
| Render.ItemSectionAreLines | room.py:112-121 | the item part is "The room is empty.", the one-item form, or the header followed by every item |
| Render.SummaryAreLines | room.py:91-124 | the summary is the name, a blank line, the description, the doorway lines, a blank line and the item part, each line ending in a newline |
| Render.SummaryRead | room.py:91-124 | read back line by line, the summary gives exactly that list of lines |
| Render.SummaryDropLast | room.py:181 | the summary ends in a newline, and `[:-1]` removes just that newline |
| Render.LinesUnlines | room.py:91-124 | lines without newlines, each terminated by one, read back as the same lines |
| Render.OtherNames | room.py:135-142 | the listed names are exactly those of registrations from other addresses |
| Render.OtherLines | room.py:135-142 | the listing is empty exactly when no registration comes from another address |
| Render.OtherPlayers | room.py:128-142 | the text is "There are no other players in this room." exactly when there is one registration |
| Render.OtherLinesAreLines | room.py:135-142 | the listing is one line per other registration, in join order |
| Render.OtherPlayersListsOthers | room.py:138-142 | with no registration or with three or more, the text is the header line followed by exactly the other players' names |
| Render.OtherPlayersTwo | room.py:133-137 | with two registrations the text is the one-other header followed by the other player's name and a full stop when the caller holds exactly one of the two addresses, by nothing when both share it, and by both names when the caller holds neither |
| Render.OtherLinesTwo | room.py:135-137 | of two registrations, each one not made from the caller's address contributes its name and a full stop, in join order |
| Render.OtherPlayersOneOtherTwoNames | room.py:133-137 | a caller at neither of two addresses is told "one other player" and given two names |
| Render.OtherPlayersFew | room.py:131-142 | one registration is told there is nobody else; an empty registry gets the header line alone |
| Render.OtherPlayersExample | room.py:138-142 | of three players at distinct addresses, the second is given the header line and the other two names |
| Render.OtherNamesSameAddress | room.py:136 | when every registration has the caller's address, nobody is listed |
| Render.ServerGetRoom | room.py:41-52 | `None` exactly when there are no neighbours |
| Render.ServerGetRoomAddress | room.py:46-47 | on a case-insensitive match with the first neighbour, the answer splits into its direction, its host and its port |
| Render.ServerGetRoomFirstOnly | room.py:45-52 | the answer depends on the first neighbour only |
| Render.ServerGetRoomSecondIgnored | room.py:45-52 | with north then south configured, asking for south is refused |
| Render.ServerGetRoomRefusals | room.py:48-52 | a refusal says "door" for up and "hatch" for a compass direction |
| Render.ServerGetRoomCaseInsensitive | room.py:46 | directions that agree up to case get the same answer when they match |
| Commands.Show | room.py:177 | `'{}'.format(x)` of a name is the name and of `None` is "None" |
| Commands.Broadcast | room.py:178-180 | every send carries the text and goes to a listed connection other than the issuer; each such connection receives it once per occurrence in the list, and the issuer never |
| Commands.Invalid | room.py:242-243 | "Invalid command" to the issuer alone, nothing changed, nothing raised, nothing closed |
| Commands.Join | room.py:171-183 | join never raises or closes, keeps the items and answers the issuer last |
| Commands.Exit | room.py:187-195 | exit closes exactly when it raises nothing; when it raises, nothing is sent and the connections are unchanged; the items are kept |
| Commands.Take | room.py:207-215 | take never raises or closes, keeps the registry and the connections and answers the issuer |
| Commands.Drop | room.py:219-225 | drop never raises or closes, keeps the registry and the connections and answers the issuer |
| Commands.Say | room.py:228-234 | say changes nothing, never raises or closes, and answers the issuer last |
| Commands.Dispatch | room.py:162-243 | a raising call sends nothing, closes nothing and keeps the items; only the whole message `exit` closes; whatever is sent ends with a send to the issuer; a call that sends nothing and raises nothing changes nothing |
| Commands.NoWordsRaises | room.py:166-171 | a message with no words raises `IndexError`: nothing is sent and nothing changes |
| Commands.TakePresent | room.py:209-211 | taking a present item removes its first occurrence, one copy only; the issuer is told "w taken"; the registry and the connections are unchanged |
| Commands.TakeAbsent | room.py:212-213 | taking an absent item changes nothing and answers "w cannot be taken in this room" |
| Commands.DropAppends | room.py:219-223 | dropping appends the item to the floor and answers "w dropped" |
| Commands.TakeThenDrop | room.py:207-223 | take then drop of a present item restores the floor as a multiset and leaves the registry and the connections unchanged |
| Commands.WrongArity | room.py:171-226 | `join`, `take` or `drop` with other than one argument answers "Invalid command" and changes nothing |
| Commands.JoinRegisters | room.py:171-181 | join appends the registration and the connection; every other connection is told who entered (the earlier name if the address was already registered); the issuer gets the summary without its final newline |
| Commands.JoinTellsOnce | room.py:177-180 | each other connection is told who entered once per occurrence in the connection list |
| Commands.JoinDuplicateName | room.py:172-174 | joining under a registered name registers it a second time |
| Commands.ExitLeaves | room.py:187-196 | exit removes the first registration named like the one found by the caller's address, and the first copy of the connection (the others keep their order); it tells the others who left, sends "Goodbye" and closes |
| Commands.ExitTellsOnce | room.py:188-193 | each other connection is told who left once per occurrence in the connection list |
| Commands.ExitSharedAddressRemovesFirst | room.py:187-190 | of two players registered from one address, an exit removes the first one's registration and names the first one |
| Commands.ExitSharedNameRemovesOther | room.py:187-190 | of two registrations of one name, an exit from the second address removes the first registration |
| Commands.ExitNotJoinedRaises | room.py:187-190 | exit from a connection that never joined raises `ValueError` after the registration has been removed, and sends nothing |
| Commands.LookRaises | room.py:199-203 | `look` raises `TypeError`, sends nothing and changes nothing |
| Commands.DirectionIsNoCommand | room.py:237 | no command word upper-cases to a direction |
| Commands.MoveIsSilent | room.py:237-238 | a message whose first word upper-cases to a direction sends nothing and changes nothing, whatever words follow |
| Commands.MoveWithMoreWordsIsSilent | room.py:237-238 | "north now" is a silent move |
| Commands.LookalikeMoveIsSilent | room.py:237-238 | a direction spelt with a long s or an "st" ligature is a silent move too |
| Commands.SaySends | room.py:228-234 | `say t` with a final character tells every other connection `x said "t"` and the issuer `You said "t".`; nothing changes |
| Commands.SaySameAddressNamesFirst | room.py:229 | when every registration has the same address, every speaker is named after the first registration |
| Commands.RawCommandNotWhole | room.py:187-243 | a message whose only word is `exit` or `look` but which is not exactly that word answers "Invalid command" and changes nothing |
| Commands.RawCommandLines | room.py:187 | "exit" or "look" followed by a newline splits into the bare word yet differs from it |
| Commands.UnknownWordInvalid | room.py:242-243 | a first word that is no command and no direction answers "Invalid command" and changes nothing |
| Commands.RegistryOnlyByJoinExit | room.py:162-243 | only join and exit change the registry and the connections |
| Commands.ItemsOnlyByTakeDrop | room.py:162-243 | only take and drop change the items |
| Commands.ScenarioWords | room.py:167 | "join Ann" and "take key" split into their two words |
| Commands.HallSummary | room.py:91-124 | a hall with a key and a torch is summarised as name, blank, description, blank, header and the two indented items |
| Commands.AnnJoins | room.py:171-181 | a player joining an empty room is registered and receives only the summary |
| Commands.AnnTakes | room.py:209-211 | taking the key from key and torch leaves the torch |
| Commands.AnnTakesAgain | room.py:212-213 | taking the key again is refused |
| Commands.AnnTakesTheKey | room.py:162-243 | join, take and take again in sequence give those three outcomes |
| RoomServer.Room.constructor | room.py:10-30 | a new room has its configuration and items, no registrations and no connections |
| RoomServer.Room.ClientSearch | room.py:57-61 | the scan returns `Search` of the registry |
| RoomServer.Room.ClientSearchByAddress | room.py:66-70 | the scan returns `SearchByAddress` of the registry |
| RoomServer.Room.ClientAdd | room.py:75-77 | one registration is appended and nothing else changes |
| RoomServer.Room.ClientRemove | room.py:82-86 | the registry becomes `RemoveNamed` of the old one and nothing else changes |
| RoomServer.Room.SendToOthers | room.py:178-180 | the send loop produces exactly `Broadcast` over the connections |
| RoomServer.Room.ProcessMessage | room.py:162-243 | the new lists, the sends, the close and the exception are exactly those of `Dispatch` on the old lists |

## Left out

- Sockets, the selector loop, `accept` and `setblocking` are not modelled.
  - Sends are collected in an outbox and `close` becomes a flag.
  - Whether a socket is closed is not tracked. A connection that joined
    twice and then exits keeps one copy in `connections` (`room.py:190`
    removes one) after its socket is closed (`room.py:195`). The next
    broadcast's `send` on it raises `OSError` in the server, while the
    model just records a send.
  - The 1024-byte `recv` limit and UTF-8 decoding are not modelled: the
    received text is a string parameter.
- `print` logging, the signal handler and `print_room_summary` only write to
  the console.
- The command-line parsing in `main` (argparse, urlparse) is not modelled.
  The configuration is given to the `Room` constructor. A neighbour URL
  without a port (`port` would be `None`) is not modelled: ports are
  naturals.
- The commented-out UDP loop is dead code.
- `player.py`, the client, is not part of this model.
- `PyStr.Upper` maps ASCII letters and the ten characters whose upper case is
  plain ASCII (sharp s, dotless i, long s and the Latin ligatures U+FB00 to
  U+FB06) as Python does, and keeps every other character. Python's
  `upper()` changes those others too, but an upper case holding a
  non-ASCII character cannot equal a name in `DIRECTIONS` or a neighbour
  direction (`main` configures only the six ASCII directions,
  `room.py:280-298`), so the comparisons at `room.py:46` and `room.py:237`
  come out the same. A refusal's text uses the unconverted direction.
- `Registry.RemoveFirst` requires the value to be present. Python's
  `list.remove` raises `ValueError` otherwise; the one call that can meet an
  absent value, `connections.remove` in `exit`, is modelled with that error
  in `Commands.Exit`.
- Exceptions end the model's call with the lists as they were at the raise.
  The effect on the server process, which stops it, is not modelled.
- `Render.OtherPlayers` models the text `get_other_players` builds. That text
  is never returned, so nothing in the server uses it.
