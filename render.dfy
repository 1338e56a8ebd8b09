/**
 * The room's text renderers: `summarize_room`, the string `get_other_players`
 * builds, and `server_get_room`. Each reads the room's configuration and its
 * lists and returns text; none changes anything.
 *
 * The partner of each renderer is `Lines`, which reads newline-terminated
 * lines back out of the text: the lemmas below state, line by line, what a
 * player sees.
 */
module Render {
  import opened Wrappers
  import opened PyStr
  import opened Registry

  /** One entry of `adjacent_rooms`: `(direction, hostname, port)`. */
  datatype Adjacency = Adjacency(direction: string, host: string, port: nat)

  /** The room's fixed configuration: its name, description and neighbours. */
  datatype Config = Config(name: string, description: string, adjacent: seq<Adjacency>)

  /** `DIRECTIONS`, the words that select the movement branch once upper-cased. */
  const Directions: seq<string> := ["NORTH", "SOUTH", "EAST", "WEST", "UP", "DOWN"]

  // ---------------------------------------------------------------------------
  // Reading lines back

  /** The index of the first newline at or after `i`, or `|s|` when there is none. */
  function LineEnd(s: string, i: nat): (k: nat)
    requires i <= |s|
    ensures i <= k <= |s|
    ensures k < |s| ==> s[k] == '\n'
    ensures forall j :: i <= j < k ==> s[j] != '\n'
    decreases |s| - i
  {
    if i == |s| || s[i] == '\n' then i else LineEnd(s, i + 1)
  }

  /** The newline-terminated lines of `s`, without their newlines; an unterminated tail is dropped. */
  function Lines(s: string): seq<string>
    decreases |s|
  {
    if s == [] then []
    else
      var k := LineEnd(s, 0);
      if k == |s| then [] else [s[..k]] + Lines(s[k + 1..])
  }

  predicate NoNewline(s: string)
  {
    forall j :: 0 <= j < |s| ==> s[j] != '\n'
  }

  lemma LineEndAt(s: string, k: nat)
    requires k < |s| && s[k] == '\n'
    requires forall j :: 0 <= j < k ==> s[j] != '\n'
    ensures LineEnd(s, 0) == k
  {
  }

  /** A line without newlines, then a newline, reads back as that line first. */
  lemma LinesCons(l: string, rest: string)
    requires NoNewline(l)
    ensures Lines(l + "\n" + rest) == [l] + Lines(rest)
  {
    var s := l + "\n" + rest;
    LineEndAt(s, |l|);
    assert s[..|l|] == l;
    assert s[|l| + 1..] == rest;
  }

  /** Lines joined into text, each followed by a newline. */
  function Unlines(ls: seq<string>): (r: string)
    ensures ls != [] ==> |r| > 0 && r[|r| - 1] == '\n'
    decreases |ls|
  {
    if ls == [] then "" else ls[0] + "\n" + Unlines(ls[1..])
  }

  predicate AllOneLine(ls: seq<string>)
  {
    forall i :: 0 <= i < |ls| ==> NoNewline(ls[i])
  }

  lemma {:induction false} UnlinesAppend(a: seq<string>, b: seq<string>)
    ensures Unlines(a + b) == Unlines(a) + Unlines(b)
    decreases |a|
  {
    if a == [] {
      assert a + b == b;
    } else {
      assert (a + b)[0] == a[0];
      assert (a + b)[1..] == a[1..] + b;
      UnlinesAppend(a[1..], b);
    }
  }

  /** Reading lines back from joined lines gives the lines. */
  lemma {:induction false} LinesUnlines(ls: seq<string>)
    requires AllOneLine(ls)
    ensures Lines(Unlines(ls)) == ls
    decreases |ls|
  {
    if ls != [] {
      assert AllOneLine(ls[1..]) by {
        forall i | 0 <= i < |ls[1..]| ensures NoNewline(ls[1..][i]) { assert ls[1..][i] == ls[i + 1]; }
      }
      var rest := Unlines(ls[1..]);
      calc {
        Lines(Unlines(ls));
        Lines(ls[0] + "\n" + rest);
        { assert NoNewline(ls[0]); LinesCons(ls[0], rest); }
        [ls[0]] + Lines(rest);
        { LinesUnlines(ls[1..]); }
        [ls[0]] + ls[1..];
        { assert ls == [ls[0]] + ls[1..]; }
        ls;
      }
    }
  }

  // ---------------------------------------------------------------------------
  // summarize_room

  const DoorwayPrefix := "A doorway leads away from the room to the "
  const HatchPrefix := "A hatch leads out of the room going "
  const EmptyRoom := "The room is empty."
  const OneItem := "In this room, there is:"
  const ManyItems := "In this room, there are:"

  /**
   * The line for one neighbour. The source guards the doorway line with
   * `direction != "up" or direction != "down"`, which is always true, so the
   * hatch line is never produced (see `HatchNeverRendered`).
   */
  function DoorwayLine(a: Adjacency): (r: string)
    ensures r == "" <==> a.direction == ""
    ensures r != "" ==> r == DoorwayPrefix + a.direction + ".\n"
  {
    if a.direction != "" then
      if a.direction != "up" || a.direction != "down" then
        DoorwayPrefix + a.direction + ".\n"
      else
        HatchPrefix + a.direction + ".\n"
    else ""
  }

  /** The neighbour lines, in configuration order. */
  function Doorways(adjacent: seq<Adjacency>): (r: string)
    ensures r == "" || r[|r| - 1] == '\n'
    ensures (forall i :: 0 <= i < |adjacent| ==> adjacent[i].direction == "") <==> r == ""
    decreases |adjacent|
  {
    if adjacent == [] then "" else DoorwayLine(adjacent[0]) + Doorways(adjacent[1..])
  }

  /** `"  item\n"` for each item, in list order. */
  function ItemLines(items: seq<string>): (r: string)
    ensures |r| >= 3 * |items|
    ensures items != [] ==> r[|r| - 1] == '\n'
    decreases |items|
  {
    if items == [] then "" else "  " + items[0] + "\n" + ItemLines(items[1..])
  }

  /** The item part of the summary: empty room, one item, or an itemised list. */
  function ItemSection(items: seq<string>): (r: string)
    ensures |r| > 0 && r[|r| - 1] == '\n'
  {
    if |items| == 0 then EmptyRoom + "\n"
    else if |items| == 1 then OneItem + "\n" + ("  " + items[0] + "\n")
    else ManyItems + "\n" + ItemLines(items)
  }

  /**
   * `summarize_room()`: name, blank line, description, the neighbour lines,
   * a blank line, then the item part.
   */
  function Summary(cfg: Config, items: seq<string>): (r: string)
    ensures |r| > |cfg.name| + |cfg.description| && r[..|cfg.name|] == cfg.name && r[|r| - 1] == '\n'
  {
    var rest := "\n\n" + cfg.description + "\n" + Doorways(cfg.adjacent) + "\n" + ItemSection(items);
    assert rest[|rest| - 1] == '\n' && |rest| > |cfg.description|;
    assert (cfg.name + rest)[..|cfg.name|] == cfg.name;
    cfg.name + "\n\n" + cfg.description + "\n" + Doorways(cfg.adjacent) + "\n" + ItemSection(items)
  }

  /** The sentence each neighbour contributes: a doorway for every non-empty direction. */
  function DoorSentences(adjacent: seq<Adjacency>): (r: seq<string>)
    ensures |r| <= |adjacent|
    decreases |adjacent|
  {
    if adjacent == [] then []
    else if adjacent[0].direction == "" then DoorSentences(adjacent[1..])
    else [DoorwayPrefix + adjacent[0].direction + "."] + DoorSentences(adjacent[1..])
  }

  /** Each item indented by two spaces. */
  function Indented(items: seq<string>): seq<string>
  {
    seq(|items|, i requires 0 <= i < |items| => "  " + items[i])
  }

  /** The lines of the item part. */
  function ItemSectionLines(items: seq<string>): seq<string>
  {
    if |items| == 0 then [EmptyRoom]
    else if |items| == 1 then [OneItem, "  " + items[0]]
    else [ManyItems] + Indented(items)
  }

  /** The lines of the whole summary. */
  function SummaryLines(cfg: Config, items: seq<string>): seq<string>
  {
    [cfg.name, "", cfg.description] + (DoorSentences(cfg.adjacent) + ([""] + ItemSectionLines(items)))
  }

  /** Whatever the direction, no neighbour is rendered as a hatch. */
  lemma HatchNeverRendered(a: Adjacency)
    ensures DoorwayLine(a) != HatchPrefix + a.direction + ".\n"
  {
    var h := HatchPrefix + a.direction + ".\n";
    if a.direction != "" {
      assert DoorwayLine(a)[2] == DoorwayPrefix[2] != HatchPrefix[2] == h[2];
    } else {
      assert |h| > 0;
    }
  }

  lemma UnlinesCons(l: string, ls: seq<string>)
    ensures Unlines([l] + ls) == l + "\n" + Unlines(ls)
  {
    assert ([l] + ls)[1..] == ls;
  }

  /** The neighbour text is one doorway line per non-empty direction, in configuration order. */
  lemma {:induction false} DoorwaysAreLines(adjacent: seq<Adjacency>)
    ensures Doorways(adjacent) == Unlines(DoorSentences(adjacent))
    decreases |adjacent|
  {
    if adjacent != [] {
      DoorwaysAreLines(adjacent[1..]);
      var d := adjacent[0].direction;
      if d != "" {
        var l := DoorwayPrefix + d + ".";
        assert DoorwayLine(adjacent[0]) == l + "\n";
        UnlinesCons(l, DoorSentences(adjacent[1..]));
      } else {
        assert Doorways(adjacent) == "" + Doorways(adjacent[1..]);
      }
    }
  }

  /** The itemised list is one indented line per item, in list order. */
  lemma {:induction false} ItemLinesAreLines(items: seq<string>)
    ensures ItemLines(items) == Unlines(Indented(items))
    decreases |items|
  {
    if items != [] {
      ItemLinesAreLines(items[1..]);
      assert Indented(items) == ["  " + items[0]] + Indented(items[1..]);
      UnlinesCons("  " + items[0], Indented(items[1..]));
    }
  }

  lemma ItemSectionAreLines(items: seq<string>)
    ensures ItemSection(items) == Unlines(ItemSectionLines(items))
  {
    if |items| == 0 {
      UnlinesCons(EmptyRoom, []);
    } else if |items| == 1 {
      var l := "  " + items[0];
      UnlinesCons(l, []);
      UnlinesCons(OneItem, [l]);
      assert [OneItem] + [l] == [OneItem, l];
    } else {
      ItemLinesAreLines(items);
      UnlinesCons(ManyItems, Indented(items));
    }
  }

  lemma SummaryHead(name: string, description: string, rest: seq<string>)
    ensures Unlines([name, "", description] + rest) == name + "\n\n" + description + "\n" + Unlines(rest)
  {
    var u := Unlines(rest);
    var n2 := name + "\n\n";
    calc {
      Unlines([name, "", description] + rest);
      { assert [name, "", description] + rest == [name] + ([""] + ([description] + rest)); }
      Unlines([name] + ([""] + ([description] + rest)));
      { UnlinesCons(name, [""] + ([description] + rest));
        UnlinesCons("", [description] + rest);
        UnlinesCons(description, rest); }
      name + "\n" + ("" + "\n" + (description + "\n" + u));
      { assert "" + "\n" == "\n"; }
      name + "\n" + ("\n" + (description + "\n" + u));
      { Assoc(name + "\n", "\n", description + "\n" + u); }
      name + "\n" + "\n" + (description + "\n" + u);
      { Assoc(name, "\n", "\n"); assert "\n" + "\n" == "\n\n"; }
      n2 + (description + "\n" + u);
      { Assoc(n2, description + "\n", u); }
      n2 + (description + "\n") + u;
      { Assoc(n2, description, "\n"); }
      n2 + description + "\n" + u;
    }
  }

  /** The summary is exactly its lines, each ended by a newline. */
  lemma SummaryAreLines(cfg: Config, items: seq<string>)
    ensures Summary(cfg, items) == Unlines(SummaryLines(cfg, items))
  {
    var doors := DoorSentences(cfg.adjacent);
    var isl := ItemSectionLines(items);
    var d := Doorways(cfg.adjacent);
    var i := ItemSection(items);
    var head := cfg.name + "\n\n" + cfg.description + "\n";
    calc {
      Unlines(SummaryLines(cfg, items));
      { SummaryHead(cfg.name, cfg.description, doors + ([""] + isl)); }
      head + Unlines(doors + ([""] + isl));
      { UnlinesAppend(doors, [""] + isl); }
      head + (Unlines(doors) + Unlines([""] + isl));
      { UnlinesCons("", isl); DoorwaysAreLines(cfg.adjacent); ItemSectionAreLines(items); }
      head + (d + ("" + "\n" + i));
      { assert "" + "\n" == "\n"; }
      head + (d + ("\n" + i));
      { Assoc(head, d, "\n" + i); }
      head + d + ("\n" + i);
      { Assoc(head + d, "\n", i); }
      head + d + "\n" + i;
    }
  }

  predicate DirectionsOneLine(adjacent: seq<Adjacency>)
  {
    forall i :: 0 <= i < |adjacent| ==> NoNewline(adjacent[i].direction)
  }

  lemma DoorSentenceOneLine(d: string)
    requires NoNewline(d)
    ensures NoNewline(DoorwayPrefix + d + ".")
  {
    assert NoNewline(DoorwayPrefix);
    var s := DoorwayPrefix + d + ".";
    forall j | 0 <= j < |s| ensures s[j] != '\n' {
      if j < |DoorwayPrefix| { assert s[j] == DoorwayPrefix[j]; }
      else if j < |DoorwayPrefix| + |d| { assert s[j] == d[j - |DoorwayPrefix|]; }
    }
  }

  lemma {:induction false} DoorSentencesOneLine(adjacent: seq<Adjacency>)
    requires DirectionsOneLine(adjacent)
    ensures AllOneLine(DoorSentences(adjacent))
    decreases |adjacent|
  {
    if adjacent != [] {
      assert DirectionsOneLine(adjacent[1..]) by {
        forall i | 0 <= i < |adjacent[1..]| ensures NoNewline(adjacent[1..][i].direction) {
          assert adjacent[1..][i] == adjacent[i + 1];
        }
      }
      DoorSentencesOneLine(adjacent[1..]);
      if adjacent[0].direction != "" {
        DoorSentenceOneLine(adjacent[0].direction);
      }
    }
  }

  lemma ItemSectionOneLine(items: seq<string>)
    requires AllOneLine(items)
    ensures AllOneLine(ItemSectionLines(items))
  {
    var ls := ItemSectionLines(items);
    assert NoNewline(EmptyRoom) && NoNewline(OneItem) && NoNewline(ManyItems);
    forall k | 0 <= k < |ls| ensures NoNewline(ls[k]) {
      if k > 0 {
        var it := items[k - 1];
        assert NoNewline(it);
        assert ls[k] == "  " + it;
        assert forall j :: 2 <= j < |ls[k]| ==> ls[k][j] == it[j - 2];
      }
    }
  }

  /**
   * The summary, read line by line: the name, a blank line, the description,
   * one doorway sentence per configured direction in configuration order, a
   * blank line, then "The room is empty.", or "In this room, there is:" and
   * the item, or "In this room, there are:" and every item in list order,
   * each item indented by two spaces.
   */
  lemma SummaryRead(cfg: Config, items: seq<string>)
    requires NoNewline(cfg.name) && NoNewline(cfg.description)
    requires DirectionsOneLine(cfg.adjacent) && AllOneLine(items)
    ensures Lines(Summary(cfg, items)) == SummaryLines(cfg, items)
  {
    SummaryAreLines(cfg, items);
    SummaryLinesOneLine(cfg, items);
    LinesUnlines(SummaryLines(cfg, items));
  }

  /** No line of the summary holds a newline when no configured text and no item does. */
  lemma SummaryLinesOneLine(cfg: Config, items: seq<string>)
    requires NoNewline(cfg.name) && NoNewline(cfg.description)
    requires DirectionsOneLine(cfg.adjacent) && AllOneLine(items)
    ensures AllOneLine(SummaryLines(cfg, items))
  {
    DoorSentencesOneLine(cfg.adjacent);
    ItemSectionOneLine(items);
    var doors := DoorSentences(cfg.adjacent);
    var isl := ItemSectionLines(items);
    var ls := SummaryLines(cfg, items);
    forall k | 0 <= k < |ls| ensures NoNewline(ls[k]) {
      if k == 1 || k == 3 + |doors| {
      } else if 3 <= k < 3 + |doors| {
        assert ls[k] == doors[k - 3];
      } else if k > 3 + |doors| {
        assert ls[k] == isl[k - 4 - |doors|];
      }
    }
  }

  /** The summary ends with a newline, so `[:-1]` removes exactly that newline. */
  lemma SummaryDropLast(cfg: Config, items: seq<string>)
    ensures DropLast(Summary(cfg, items)) + "\n" == Summary(cfg, items)
  {
    var s := Summary(cfg, items);
    SummaryAreLines(cfg, items);
    assert |SummaryLines(cfg, items)| > 0;
    assert s[|s| - 1] == '\n';
    assert DropLast(s) + [s[|s| - 1]] == s;
  }

  // ---------------------------------------------------------------------------
  // get_other_players

  const NoOthers := "There are no other players in this room."
  const OneOther := "There is one other player in this room: "
  const ManyOthers := "The other players in this room are: "

  /** The names of the registrations not made from `address`, in join order. */
  function OtherNames(clients: seq<Registration>, address: Addr): (r: seq<string>)
    ensures |r| <= |clients|
    ensures forall i :: 0 <= i < |clients| && clients[i].address != address ==> clients[i].player in r
    ensures forall n :: n in r ==> exists i :: 0 <= i < |clients| && clients[i].address != address && clients[i].player == n
    decreases |clients|
  {
    if clients == [] then []
    else
      var rest := OtherNames(clients[1..], address);
      assert forall i :: 0 < i < |clients| ==> clients[i] == clients[1..][i - 1];
      assert forall n :: n in rest ==> exists i :: 0 < i < |clients| && clients[i].address != address && clients[i].player == n;
      if clients[0].address != address then [clients[0].player] + rest else rest
  }

  /** One line per registration not made from `address`: its name, then `dot`, then a newline. */
  function OtherLines(clients: seq<Registration>, address: Addr, dot: string): (r: string)
    ensures r == "" <==> OtherNames(clients, address) == []
    decreases |clients|
  {
    if clients == [] then ""
    else
      (if clients[0].address != address then clients[0].player + dot + "\n" else "")
      + OtherLines(clients[1..], address, dot)
  }

  /**
   * The string `get_other_players(address)` builds. The source never returns
   * it (the function has no `return`), so the caller receives `None`.
   * With one registration it says there is nobody else, whoever that is.
   */
  function OtherPlayers(clients: seq<Registration>, address: Addr): (r: string)
    ensures r == NoOthers <==> |clients| == 1
  {
    assert forall t :: (OneOther + t)[6] != NoOthers[6] && (ManyOthers + t)[3] != NoOthers[3];
    if |clients| == 1 then NoOthers
    else if |clients| == 2 then OneOther + OtherLines(clients, address, ".")
    else ManyOthers + "\n" + OtherLines(clients, address, "")
  }

  function Suffixed(names: seq<string>, dot: string): seq<string>
  {
    seq(|names|, i requires 0 <= i < |names| => names[i] + dot)
  }

  /** The other-player text is one line per other player's name followed by `dot`, in join order. */
  lemma {:induction false} OtherLinesAreLines(clients: seq<Registration>, address: Addr, dot: string)
    ensures OtherLines(clients, address, dot) == Unlines(Suffixed(OtherNames(clients, address), dot))
    decreases |clients|
  {
    if clients != [] {
      OtherLinesAreLines(clients[1..], address, dot);
      var rest := Suffixed(OtherNames(clients[1..], address), dot);
      if clients[0].address != address {
        var l := clients[0].player + dot;
        assert OtherNames(clients, address) == [clients[0].player] + OtherNames(clients[1..], address);
        assert Suffixed(OtherNames(clients, address), dot) == [l] + rest;
        calc {
          OtherLines(clients, address, dot);
          l + "\n" + OtherLines(clients[1..], address, dot);
          l + "\n" + Unlines(rest);
          { UnlinesCons(l, rest); }
          Unlines([l] + rest);
        }
      } else {
        assert OtherNames(clients, address) == OtherNames(clients[1..], address);
        assert OtherLines(clients, address, dot) == "" + OtherLines(clients[1..], address, dot);
      }
    }
  }

  predicate NamesOneLine(clients: seq<Registration>)
  {
    forall i :: 0 <= i < |clients| ==> NoNewline(clients[i].player)
  }

  lemma {:induction false} OtherNamesOneLine(clients: seq<Registration>, address: Addr)
    requires NamesOneLine(clients)
    ensures AllOneLine(OtherNames(clients, address))
    decreases |clients|
  {
    if clients != [] {
      assert NamesOneLine(clients[1..]) by {
        forall i | 0 <= i < |clients[1..]| ensures NoNewline(clients[1..][i].player) { assert clients[1..][i] == clients[i + 1]; }
      }
      OtherNamesOneLine(clients[1..], address);
      assert NoNewline(clients[0].player);
    }
  }

  /**
   * With three or more registrations the text lists, one per line, exactly
   * the players registered from other addresses, in join order.
   */
  lemma OtherPlayersListsOthers(clients: seq<Registration>, address: Addr)
    requires |clients| != 1 && |clients| != 2 && NamesOneLine(clients)
    ensures Lines(OtherPlayers(clients, address)) == [ManyOthers] + OtherNames(clients, address)
  {
    var names := OtherNames(clients, address);
    assert Suffixed(names, "") == names by {
      forall i | 0 <= i < |names| ensures Suffixed(names, "")[i] == names[i] { assert names[i] + "" == names[i]; }
    }
    assert AllOneLine([ManyOthers] + names) by {
      OtherNamesOneLine(clients, address);
      assert NoNewline(ManyOthers);
      forall k | 0 <= k < |[ManyOthers] + names| ensures NoNewline(([ManyOthers] + names)[k]) {
        if k > 0 { assert ([ManyOthers] + names)[k] == names[k - 1]; }
      }
    }
    calc {
      Lines(OtherPlayers(clients, address));
      Lines(ManyOthers + "\n" + OtherLines(clients, address, ""));
      { OtherLinesAreLines(clients, address, ""); }
      Lines(ManyOthers + "\n" + Unlines(names));
      { UnlinesCons(ManyOthers, names); }
      Lines(Unlines([ManyOthers] + names));
      { LinesUnlines([ManyOthers] + names); }
      [ManyOthers] + names;
    }
  }

  /**
   * With two registrations the text is the one-other header followed by a
   * line, name and full stop, for each registration not made from the
   * caller's address, in join order: the other player's name when the caller
   * holds one of the two addresses, nothing when both share it, and both
   * names when the caller holds neither.
   */
  lemma OtherPlayersTwo(clients: seq<Registration>, address: Addr)
    requires |clients| == 2
    ensures var a, b := clients[0], clients[1];
            && (a.address == address && b.address != address ==> OtherPlayers(clients, address) == OneOther + b.player + ".\n")
            && (a.address != address && b.address == address ==> OtherPlayers(clients, address) == OneOther + a.player + ".\n")
            && (a.address == address && b.address == address ==> OtherPlayers(clients, address) == OneOther)
            && (a.address != address && b.address != address ==>
                  OtherPlayers(clients, address) == OneOther + a.player + ".\n" + b.player + ".\n")
  {
    var a, b := clients[0], clients[1];
    var la := if a.address != address then a.player + ".\n" else "";
    var lb := if b.address != address then b.player + ".\n" else "";
    OtherLinesTwo(clients, address);
    assert OtherPlayers(clients, address) == OneOther + (la + lb);
    if a.address != address && b.address != address {
      Assoc(OneOther, la, lb);
    }
  }

  /** The listing of two registrations: a line for each one not made from `address`. */
  lemma OtherLinesTwo(clients: seq<Registration>, address: Addr)
    requires |clients| == 2
    ensures OtherLines(clients, address, ".")
         == (if clients[0].address != address then clients[0].player + ".\n" else "")
          + (if clients[1].address != address then clients[1].player + ".\n" else "")
  {
    assert clients[1..][1..] == [];
    assert forall n: string :: n + "." + "\n" == n + ".\n";
  }

  /**
   * A caller holding neither address of two registrations is told "one
   * other player" and then given two names.
   */
  lemma OtherPlayersOneOtherTwoNames()
    ensures OtherPlayers([Registration("A", 1), Registration("B", 2)], 3) == OneOther + "A.\nB.\n"
  {
    OtherPlayersTwo([Registration("A", 1), Registration("B", 2)], 3);
  }

  /** A lone registration is told there is nobody else, and an empty registry gets the many-players header alone. */
  lemma OtherPlayersFew(r: Registration, address: Addr)
    ensures OtherPlayers([r], address) == NoOthers
    ensures Lines(OtherPlayers([], address)) == [ManyOthers]
  {
    OtherPlayersListsOthers([], address);
  }

  /** Players A, B, C at distinct addresses: B is told about A and C only. */
  lemma OtherPlayersExample()
    ensures OtherPlayers([Registration("A", 1), Registration("B", 2), Registration("C", 3)], 2)
         == ManyOthers + "\nA\nC\n"
  {
  }

  /**
   * When every registration carries the same address, the listing of other
   * players is empty: nobody counts as "other".
   */
  lemma {:induction false} OtherNamesSameAddress(clients: seq<Registration>, address: Addr)
    requires forall i :: 0 <= i < |clients| ==> clients[i].address == address
    ensures OtherNames(clients, address) == []
    decreases |clients|
  {
    if clients != [] {
      OtherNamesSameAddress(clients[1..], address);
    }
  }

  // ---------------------------------------------------------------------------
  // server_get_room

  const NoHatch := "There is no hatch leading "
  const NoDoor := "There is no door to the "

  /**
   * `server_get_room(direction)`. The loop returns on its first iteration,
   * so only the first neighbour is consulted: its address when its direction
   * matches without regard to case, and otherwise a refusal whose wording
   * is "hatch" for the four compass directions and "door" for up and down.
   * With no neighbours at all the loop does not run and `None` is returned.
   */
  function ServerGetRoom(adjacent: seq<Adjacency>, direction: string): (r: Option<string>)
    ensures r.None? <==> adjacent == []
  {
    if adjacent == [] then None
    else
      var a := adjacent[0];
      if Upper(a.direction) == Upper(direction) then
        Some(a.direction + " " + a.host + " " + NatToString(a.port))
      else if Upper(direction) != "UP" && Upper(direction) != "DOWN" then
        Some(NoHatch + direction + ".")
      else
        Some(NoDoor + direction + ".")
  }

  /**
   * When the first neighbour matches, the answer is three words from which
   * the neighbour's direction, host and port can be read back.
   */
  lemma ServerGetRoomAddress(adjacent: seq<Adjacency>, direction: string)
    requires adjacent != [] && Upper(adjacent[0].direction) == Upper(direction)
    requires IsWord(adjacent[0].direction) && IsWord(adjacent[0].host)
    ensures ServerGetRoom(adjacent, direction).Some?
    ensures var w := Words(ServerGetRoom(adjacent, direction).value);
            |w| == 3 && w[0] == adjacent[0].direction && w[1] == adjacent[0].host
            && IsDigits(w[2]) && ParseNat(w[2]) == adjacent[0].port
  {
    var a := adjacent[0];
    var d, h, p := a.direction, a.host, NatToString(a.port);
    var ws := [d, h, p];
    assert Unwords([p]) == p;
    assert ws[1..] == [h, p];
    assert Unwords([h, p]) == h + " " + p;
    assert Unwords(ws) == d + " " + (h + " " + p);
    Assoc(d + " ", h + " ", p);
    Assoc(d + " ", h, " ");
    assert Unwords(ws) == ServerGetRoom(adjacent, direction).value;
    WordsUnwords(ws);
    ParseNatToString(a.port);
  }

  /** A neighbour further down the list is never found: only the first entry is looked at. */
  lemma ServerGetRoomFirstOnly(adjacent: seq<Adjacency>, direction: string)
    requires adjacent != []
    ensures ServerGetRoom(adjacent, direction) == ServerGetRoom(adjacent[..1], direction)
  {
  }

  /** North then south configured, "south" asked for: the answer denies a way south. */
  lemma ServerGetRoomSecondIgnored()
    ensures ServerGetRoom([Adjacency("north", "h1", 9000), Adjacency("south", "h2", 9001)], "south")
         == Some(NoHatch + "south" + ".")
  {
    var n, s := Upper("north"), Upper("south");
    assert n[0] == 'N' && n[1] == 'O' && n[2] == 'R' && n[3] == 'T' && n[4] == 'H';
    assert s[0] == 'S' && s[1] == 'O' && s[2] == 'U' && s[3] == 'T' && s[4] == 'H';
    assert n != s;
  }

  /**
   * A mismatch on "up" is refused with the "door" wording and one on a
   * compass direction with the "hatch" wording: the reverse of the
   * summary's intended pairing of doorways with compass directions and
   * hatches with up and down.
   */
  lemma ServerGetRoomRefusals()
    ensures ServerGetRoom([Adjacency("north", "h1", 9000)], "up") == Some(NoDoor + "up" + ".")
    ensures ServerGetRoom([Adjacency("up", "h1", 9000)], "north") == Some(NoHatch + "north" + ".")
  {
    var n, u := Upper("north"), Upper("up");
    assert n[0] == 'N' && n[1] == 'O' && n[2] == 'R' && n[3] == 'T' && n[4] == 'H';
    assert u[0] == 'U' && u[1] == 'P';
    assert u == "UP" && n != u && n != "DOWN";
  }

  /** The answer depends on the asked direction only through its upper-case form, apart from its echo. */
  lemma ServerGetRoomCaseInsensitive(adjacent: seq<Adjacency>, d1: string, d2: string)
    requires adjacent != [] && Upper(d1) == Upper(d2)
    ensures Upper(adjacent[0].direction) == Upper(d1) ==> ServerGetRoom(adjacent, d1) == ServerGetRoom(adjacent, d2)
  {
  }
}
