/**
 * The room's registry of players, `client_list`: a list of registrations,
 * each a player name and the address it joined from, in join order. The
 * searches scan it front to back and answer for the first match.
 */
module Registry {
  import opened Wrappers

  /** The address value a registration records (see `Room.ProcessMessage`). */
  type Addr = int

  /** One entry of `client_list`: the pair `(player, address)`. */
  datatype Registration = Registration(player: string, address: Addr)

  /** `i` is the index of the first registration named `player`. */
  predicate FirstNamedAt(clients: seq<Registration>, player: string, i: int)
  {
    0 <= i < |clients| && clients[i].player == player
    && forall j :: 0 <= j < i ==> clients[j].player != player
  }

  /** `i` is the index of the first registration made from `address`. */
  predicate FirstAddressedAt(clients: seq<Registration>, address: Addr, i: int)
  {
    0 <= i < |clients| && clients[i].address == address
    && forall j :: 0 <= j < i ==> clients[j].address != address
  }

  /** `i` is the index of the first occurrence of `x` in `s`. */
  predicate FirstAt<T(==)>(s: seq<T>, x: T, i: int)
  {
    0 <= i < |s| && s[i] == x && forall j :: 0 <= j < i ==> s[j] != x
  }

  /**
   * `client_search(player)`: the address of the first registration named
   * `player`, or `None` when no registration has that name.
   */
  function Search(clients: seq<Registration>, player: string): (r: Option<Addr>)
    ensures r.None? <==> forall i :: 0 <= i < |clients| ==> clients[i].player != player
    ensures r.Some? ==> exists i :: FirstNamedAt(clients, player, i) && clients[i].address == r.value
    decreases |clients|
  {
    if clients == [] then None
    else if clients[0].player == player then Some(clients[0].address)
    else
      var r := Search(clients[1..], player);
      assert r.Some? ==> exists i :: FirstNamedAt(clients[1..], player, i) && clients[1..][i].address == r.value;
      assert forall i :: FirstNamedAt(clients[1..], player, i) ==> FirstNamedAt(clients, player, i + 1);
      r
  }

  /**
   * `client_search_by_address(address)`: the name of the first registration
   * made from `address`, or `None` when no registration has that address.
   */
  function SearchByAddress(clients: seq<Registration>, address: Addr): (r: Option<string>)
    ensures r.None? <==> forall i :: 0 <= i < |clients| ==> clients[i].address != address
    ensures r.Some? ==> exists i :: FirstAddressedAt(clients, address, i) && clients[i].player == r.value
    decreases |clients|
  {
    if clients == [] then None
    else if clients[0].address == address then Some(clients[0].player)
    else
      var r := SearchByAddress(clients[1..], address);
      assert r.Some? ==> exists i :: FirstAddressedAt(clients[1..], address, i) && clients[1..][i].player == r.value;
      assert forall i :: FirstAddressedAt(clients[1..], address, i) ==> FirstAddressedAt(clients, address, i + 1);
      r
  }

  /**
   * Python's `list.remove(x)`: one occurrence of `x` goes (the first, see
   * `RemoveFirstAt`). Python raises `ValueError` when `x` is absent; every
   * caller in the server tests membership first, and the one that can meet
   * an absent value (`exit` on a connection no longer listed) raises that
   * error itself.
   */
  function RemoveFirst<T(==)>(s: seq<T>, x: T): (r: seq<T>)
    requires x in s
    ensures |r| == |s| - 1
    decreases |s|
  {
    if s[0] == x then s[1..]
    else [s[0]] + RemoveFirst(s[1..], x)
  }

  /** The occurrence `list.remove` takes out is the first: the rest keep their order. */
  lemma {:induction false} RemoveFirstAt<T>(s: seq<T>, x: T, i: int)
    requires FirstAt(s, x, i)
    ensures RemoveFirst(s, x) == s[..i] + s[i + 1..]
    decreases |s|
  {
    if i == 0 {
      assert s[..i] + s[i + 1..] == s[1..];
    } else {
      var t := s[1..];
      assert FirstAt(t, x, i - 1);
      RemoveFirstAt(t, x, i - 1);
      assert RemoveFirst(s, x) == [s[0]] + RemoveFirst(t, x);
      assert s[..i] == [s[0]] + t[..i - 1];
      assert s[i + 1..] == t[i..];
    }
  }

  /** `list.remove(x)` takes exactly one `x` out of the list, viewed as a multiset. */
  lemma {:induction false} RemoveFirstMultiset<T>(s: seq<T>, x: T)
    requires x in s
    ensures multiset(RemoveFirst(s, x)) == multiset(s) - multiset{x}
    decreases |s|
  {
    assert s == [s[0]] + s[1..];
    if s[0] != x {
      RemoveFirstMultiset(s[1..], x);
    }
  }

  /**
   * `client_remove(player)`: the registry without its first registration
   * named `player`; unchanged when no registration has that name.
   */
  function RemoveNamed(clients: seq<Registration>, player: string): (r: seq<Registration>)
    ensures (forall i :: 0 <= i < |clients| ==> clients[i].player != player) ==> r == clients
    ensures forall i :: FirstNamedAt(clients, player, i) ==> r == clients[..i] + clients[i + 1..]
    decreases |clients|
  {
    if clients == [] then []
    else if clients[0].player == player then clients[1..]
    else
      var tail := clients[1..];
      var r := [clients[0]] + RemoveNamed(tail, player);
      assert clients == [clients[0]] + tail;
      assert forall i :: FirstNamedAt(clients, player, i) ==> r == clients[..i] + clients[i + 1..] by {
        forall i | FirstNamedAt(clients, player, i) ensures r == clients[..i] + clients[i + 1..] {
          assert FirstNamedAt(tail, player, i - 1);
          assert clients[..i] == [clients[0]] + tail[..i - 1];
          assert clients[i + 1..] == tail[i..];
        }
      }
      r
  }

  /**
   * `client_list.remove(reg)` applied to the first registration named
   * `player`, as `client_remove` does it, is `RemoveNamed`: no earlier entry
   * can equal that registration, since every earlier entry has another name.
   */
  lemma RemoveFirstOfFirstNamed(clients: seq<Registration>, player: string, i: int)
    requires FirstNamedAt(clients, player, i)
    ensures RemoveFirst(clients, clients[i]) == RemoveNamed(clients, player)
  {
    assert FirstAt(clients, clients[i], i);
    RemoveFirstAt(clients, clients[i], i);
  }

  /**
   * Adding a registration (`client_add`) and searching by its address finds
   * the new name, unless an earlier registration already used that address,
   * in which case the earlier name is still the answer.
   */
  lemma {:induction false} SearchByAddressAfterAdd(clients: seq<Registration>, player: string, address: Addr)
    ensures SearchByAddress(clients + [Registration(player, address)], address)
         == if SearchByAddress(clients, address).Some? then SearchByAddress(clients, address) else Some(player)
    decreases |clients|
  {
    if clients != [] {
      assert (clients + [Registration(player, address)])[1..] == clients[1..] + [Registration(player, address)];
      SearchByAddressAfterAdd(clients[1..], player, address);
    }
  }

  /** The same for a search by name after `client_add`. */
  lemma {:induction false} SearchAfterAdd(clients: seq<Registration>, player: string, address: Addr)
    ensures Search(clients + [Registration(player, address)], player)
         == if Search(clients, player).Some? then Search(clients, player) else Some(address)
    decreases |clients|
  {
    if clients != [] {
      assert (clients + [Registration(player, address)])[1..] == clients[1..] + [Registration(player, address)];
      SearchAfterAdd(clients[1..], player, address);
    }
  }

  /**
   * Removing a name removes exactly one registration when the name is
   * registered, and the registry shrinks by that one entry as a multiset.
   */
  lemma RemoveNamedCount(clients: seq<Registration>, player: string)
    requires Search(clients, player).Some?
    ensures |RemoveNamed(clients, player)| == |clients| - 1
    ensures exists i :: FirstNamedAt(clients, player, i)
              && multiset(RemoveNamed(clients, player)) == multiset(clients) - multiset{clients[i]}
  {
    var i :| FirstNamedAt(clients, player, i) && clients[i].address == Search(clients, player).value;
    RemoveFirstOfFirstNamed(clients, player, i);
    RemoveFirstMultiset(clients, clients[i]);
  }

  /**
   * When a name is registered twice, removing it once leaves the later
   * registration findable: `client_remove` undoes one `join`, not all.
   */
  lemma {:induction false} RemoveNamedKeepsLater(clients: seq<Registration>, player: string, i: int, j: int)
    requires FirstNamedAt(clients, player, i) && i < j < |clients| && clients[j].player == player
    ensures Search(RemoveNamed(clients, player), player).Some?
  {
    var r := RemoveNamed(clients, player);
    assert r == clients[..i] + clients[i + 1..];
    assert r[j - 1] == clients[j];
  }
}
