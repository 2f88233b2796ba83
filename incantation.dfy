/**
 * The elevation ritual: who takes part, whether the tile and the group meet
 * the requirements of the initiator's level, the stones it consumes and the
 * level-up it grants.
 */
module IncantationCommand {
  import opened Text
  import opened Resource
  import opened ResourceContainer
  import opened GameMap
  import opened ServerWorld
  import opened ClientCommand

  // ---- Who is on the tile ---------------------------------------------------

  /**
   * What the server's two searches look for: the players standing on (x, y)
   * at `level` (_getPlayersForIncant), and, when `prayers` is set, only those
   * of them who pray (_getPlayersIncanting).
   */
  datatype Query = Query(x: int, y: int, level: nat, prayers: bool)

  predicate Matches(q: Query, p: ServerPlayer)
  {
    p.x == q.x && p.y == q.y && p.level == q.level && (q.prayers ==> p.praying)
  }

  /** The indices below n whose player matches q, in order. */
  function Matching(players: seq<ServerPlayer>, n: nat, q: Query): (r: seq<nat>)
    requires n <= |players|
    ensures forall k :: 0 <= k < |r| ==> r[k] < n
  {
    if n == 0 then [] else Matching(players, n - 1, q) + if Matches(q, players[n - 1]) then [n - 1] else []
  }

  /** Every player that matches q, in the order the server's loops visit them. */
  function Selected(players: seq<ServerPlayer>, q: Query): (r: seq<nat>)
    ensures AllIn(players, r)
  {
    Matching(players, |players|, q)
  }

  lemma {:induction false} MatchingSpec(players: seq<ServerPlayer>, n: nat, q: Query)
    requires n <= |players|
    ensures forall i :: i in Matching(players, n, q) <==> 0 <= i < n && Matches(q, players[i])
    ensures Ascending(Matching(players, n, q))
  {
    if n > 0 {
      MatchingSpec(players, n - 1, q);
    }
  }

  /**
   * The search finds exactly the players that match, each once, in loop
   * order; a list with these properties is unique (AscendingUnique).
   */
  lemma SelectedSpec(players: seq<ServerPlayer>, q: Query)
    ensures forall i :: i in Selected(players, q) <==> 0 <= i < |players| && Matches(q, players[i])
    ensures Ascending(Selected(players, q))
  {
    MatchingSpec(players, |players|, q);
  }

  /** Two ascending lists with the same elements are the same list. */
  lemma {:induction false} AscendingUnique(a: seq<nat>, b: seq<nat>)
    requires Ascending(a) && Ascending(b)
    requires forall i :: i in a <==> i in b
    ensures a == b
  {
    if a != [] {
      assert a[|a| - 1] in b;
    }
    if b != [] {
      assert b[|b| - 1] in a;
    }
    if a != [] {
      var m, n := |a| - 1, |b| - 1;
      assert a[m] == b[n];
      forall i ensures i in a[..m] <==> i in b[..n] {
        if i in a[..m] {
          assert i != a[m] && i in b;
        }
        if i in b[..n] {
          assert i != b[n] && i in a;
        }
      }
      AscendingUnique(a[..m], b[..n]);
      assert a == a[..m] + [a[m]] && b == b[..n] + [b[n]];
    }
  }

  /** A search only looks at what q tests: players that agree on it give the same list. */
  lemma {:induction false} MatchingKept(a: seq<ServerPlayer>, b: seq<ServerPlayer>, n: nat, q: Query)
    requires n <= |a| == |b|
    requires forall i :: 0 <= i < |a| ==> Matches(q, a[i]) == Matches(q, b[i])
    ensures Matching(a, n, q) == Matching(b, n, q)
  {
    if n > 0 {
      MatchingKept(a, b, n - 1, q);
    }
  }

  /**
   * _getPlayersForIncant and _getPlayersIncanting: the loops over the
   * teams' members, keeping the indices of the players that match.
   */
  method GetPlayers(h: CommandHandler, q: Query) returns (list: seq<nat>)
    ensures list == Selected(h.players, q)
  {
    list := [];
    var i := 0;
    while i < |h.players|
      invariant 0 <= i <= |h.players| && list == Matching(h.players, i, q)
    {
      if Matches(q, h.players[i]) {
        list := list + [i];
      }
      i := i + 1;
    }
  }

  /** The players _getPlayersForIncant finds for player p: those sharing its tile and level. */
  function ForIncant(p: ServerPlayer): Query
  {
    Query(p.x, p.y, p.level, false)
  }

  // ---- Requirements ---------------------------------------------------------

  /**
   * _checkIncantationResources: false outside levels 1 to 7; otherwise the
   * tile holds at least the row's amount of each of the six stones (food is
   * not looked at).
   */
  function CheckIncantationResources(tile: Stock, level: nat): (ok: bool)
    ensures ok <==> MinLevel <= level < MaxLevel && forall r :: Quantity(tile, r) >= Required(Row(level), r)
  {
    if level < MinLevel || level >= MaxLevel then false
    else
      var e := Row(level);
      var ok := StonesCovered(tile, e);
      StonesCoveredMeansAll(tile, e);
      ok
  }

  /** The six stone comparisons of the source, one by one. */
  predicate StonesCovered(tile: Stock, e: Elevation)
  {
    Quantity(tile, Linemate) >= e.linemate && Quantity(tile, Deraumere) >= e.deraumere
    && Quantity(tile, Sibur) >= e.sibur && Quantity(tile, Mendiane) >= e.mendiane
    && Quantity(tile, Phiras) >= e.phiras && Quantity(tile, Thystame) >= e.thystame
  }

  lemma StonesCoveredMeansAll(tile: Stock, e: Elevation)
    ensures StonesCovered(tile, e) <==> forall r :: Quantity(tile, r) >= Required(e, r)
  {
    if StonesCovered(tile, e) {
      forall r ensures Quantity(tile, r) >= Required(e, r) { match r case _ => }
    }
  }

  /** Player p stands on a grid of w by h tiles. */
  predicate OnGrid(tiles: Grid, w: nat, h: nat, p: ServerPlayer)
  {
    IsGrid(tiles, w, h) && 0 <= p.x < w && 0 <= p.y < h
  }

  /**
   * _checkIncantationConditions, with the level checked before the table is
   * read: below the maximum level, enough same-level players on the tile,
   * and enough stones on it.
   */
  function CheckIncantationConditions(tiles: Grid, w: nat, h: nat, players: seq<ServerPlayer>, p: ServerPlayer): (ok: bool)
    requires OnGrid(tiles, w, h, p) && p.level >= MinLevel
    ensures ok <==> p.level < MaxLevel && |Selected(players, ForIncant(p))| >= Row(p.level).players
                    && CheckIncantationResources(tiles[p.x][p.y], p.level)
  {
    if p.level >= MaxLevel then false
    else if |Selected(players, ForIncant(p))| < Row(p.level).players then false
    else CheckIncantationResources(tiles[p.x][p.y], p.level)
  }

  /**
   * _checkIncantationConditions as written reads the table row level - 1
   * before it tests the level, so it can only be evaluated for levels that
   * have a row.
   */
  function CheckIncantationConditionsAsWritten(tiles: Grid, w: nat, h: nat, players: seq<ServerPlayer>, p: ServerPlayer): (ok: bool)
    requires OnGrid(tiles, w, h, p) && MinLevel <= p.level && p.level - 1 < |ElevationRequirements|
    ensures ok == CheckIncantationConditions(tiles, w, h, players, p)
  {
    var requirements := ElevationRequirements[p.level - 1];
    if p.level >= MaxLevel then false
    else if |Selected(players, ForIncant(p))| < requirements.players then false
    else CheckIncantationResources(tiles[p.x][p.y], p.level)
  }

  /** A player at the maximum level has no row: the as-written read is past the end of the table. */
  lemma RowReadPastEnd()
    ensures MaxLevel - 1 == |ElevationRequirements|
    ensures forall p: ServerPlayer :: p.level == MaxLevel ==> !(p.level - 1 < |ElevationRequirements|)
  {
  }

  /** The tile after the ritual: each stone reduced by the row's amount, food untouched. */
  function Consumed(tile: Stock, level: nat): (t: Stock)
    requires CheckIncantationResources(tile, level)
    ensures forall r :: Quantity(t, r) == Quantity(tile, r) - Required(Row(level), r)
    ensures Quantity(t, Food) == Quantity(tile, Food)
  {
    var e := Row(level);
    var t1 := RemoveFrom(tile, Linemate, e.linemate);
    var t2 := RemoveFrom(t1, Deraumere, e.deraumere);
    var t3 := RemoveFrom(t2, Sibur, e.sibur);
    var t4 := RemoveFrom(t3, Mendiane, e.mendiane);
    var t5 := RemoveFrom(t4, Phiras, e.phiras);
    var t6 := RemoveFrom(t5, Thystame, e.thystame);
    ConsumedQuantities(tile, e);
    t6
  }

  lemma ConsumedQuantities(tile: Stock, e: Elevation)
    requires StonesCovered(tile, e)
    ensures var t := RemoveFrom(RemoveFrom(RemoveFrom(RemoveFrom(RemoveFrom(RemoveFrom(tile,
              Linemate, e.linemate), Deraumere, e.deraumere), Sibur, e.sibur), Mendiane, e.mendiane),
              Phiras, e.phiras), Thystame, e.thystame);
            forall r :: Quantity(t, r) == Quantity(tile, r) - Required(e, r)
  {
    var t := RemoveFrom(RemoveFrom(RemoveFrom(RemoveFrom(RemoveFrom(RemoveFrom(tile,
              Linemate, e.linemate), Deraumere, e.deraumere), Sibur, e.sibur), Mendiane, e.mendiane),
              Phiras, e.phiras), Thystame, e.thystame);
    forall r ensures Quantity(t, r) == Quantity(tile, r) - Required(e, r) { match r case _ => }
  }

  /** The stones a row asks for, all kinds together. */
  function RowStones(e: Elevation): nat
  {
    e.linemate + e.deraumere + e.sibur + e.mendiane + e.phiras + e.thystame
  }

  /** The ritual removes exactly the row's stones from the tile. */
  lemma ConsumedTotal(tile: Stock, level: nat)
    requires CheckIncantationResources(tile, level)
    ensures Total(Consumed(tile, level)) + RowStones(Row(level)) == Total(tile)
  {
    var e := Row(level);
    var t1 := RemoveFrom(tile, Linemate, e.linemate);
    var t2 := RemoveFrom(t1, Deraumere, e.deraumere);
    var t3 := RemoveFrom(t2, Sibur, e.sibur);
    var t4 := RemoveFrom(t3, Mendiane, e.mendiane);
    var t5 := RemoveFrom(t4, Phiras, e.phiras);
    var t6 := RemoveFrom(t5, Thystame, e.thystame);
    TotalRemove(tile, Linemate, e.linemate);
    TotalRemove(t1, Deraumere, e.deraumere);
    TotalRemove(t2, Sibur, e.sibur);
    TotalRemove(t3, Mendiane, e.mendiane);
    TotalRemove(t4, Phiras, e.phiras);
    TotalRemove(t5, Thystame, e.thystame);
    Extensionality(t6, Consumed(tile, level));
  }

  /** One removal loop of _consumeElevationResources: n single units of kind r from tile (x, y). */
  method RemoveUnits(h: CommandHandler, x: nat, y: nat, r: Resource, n: nat)
    requires h.Valid() && x < h.width && y < h.height
    requires n <= Quantity(h.tiles[x][y], r)
    modifies h`tiles
    ensures h.Valid()
    ensures h.tiles == WithTile(old(h.tiles), x, y, RemoveFrom(old(h.tiles[x][y]), r, n))
  {
    ghost var t0 := h.tiles[x][y];
    assert RemoveFrom(t0, r, 0) == t0;
    WithTileSame(h.tiles, x, y);
    var i := 0;
    while i < n
      invariant 0 <= i <= n && h.Valid()
      invariant h.tiles == WithTile(old(h.tiles), x, y, RemoveFrom(t0, r, i))
    {
      assert RemoveFrom(RemoveFrom(t0, r, i), r, 1) == RemoveFrom(t0, r, i + 1);
      WithTileTwice(old(h.tiles), x, y, RemoveFrom(t0, r, i), RemoveFrom(t0, r, i + 1));
      h.tiles := WithTile(h.tiles, x, y, RemoveFrom(h.tiles[x][y], r, 1));
      i := i + 1;
    }
  }

  /** _consumeElevationResources: the tile (x, y) loses the row's stones and nothing else changes. */
  method ConsumeElevationResources(h: CommandHandler, x: nat, y: nat, level: nat)
    requires h.Valid() && x < h.width && y < h.height
    requires CheckIncantationResources(h.tiles[x][y], level)
    modifies h`tiles
    ensures h.Valid()
    ensures h.tiles == WithTile(old(h.tiles), x, y, Consumed(old(h.tiles[x][y]), level))
  {
    var e := Row(level);
    ghost var g0 := h.tiles;
    ghost var t0 := h.tiles[x][y];
    RemoveUnits(h, x, y, Linemate, e.linemate);
    ghost var t1 := RemoveFrom(t0, Linemate, e.linemate);
    RemoveUnits(h, x, y, Deraumere, e.deraumere);
    ghost var t2 := RemoveFrom(t1, Deraumere, e.deraumere);
    WithTileTwice(g0, x, y, t1, t2);
    RemoveUnits(h, x, y, Sibur, e.sibur);
    ghost var t3 := RemoveFrom(t2, Sibur, e.sibur);
    WithTileTwice(g0, x, y, t2, t3);
    RemoveUnits(h, x, y, Mendiane, e.mendiane);
    ghost var t4 := RemoveFrom(t3, Mendiane, e.mendiane);
    WithTileTwice(g0, x, y, t3, t4);
    RemoveUnits(h, x, y, Phiras, e.phiras);
    ghost var t5 := RemoveFrom(t4, Phiras, e.phiras);
    WithTileTwice(g0, x, y, t4, t5);
    RemoveUnits(h, x, y, Thystame, e.thystame);
    ghost var t6 := RemoveFrom(t5, Thystame, e.thystame);
    WithTileTwice(g0, x, y, t5, t6);
  }

  // ---- Messages -------------------------------------------------------------

  const Underway := "Elevation underway\n"

  /** What an elevated player is told. */
  function LevelText(level: nat): string
  {
    "Current level: " + NatToString(level) + "\n"
  }

  /** `pie x y 1` or `pie x y 0`: the end of a ritual, with its outcome. */
  function PieMessage(x: int, y: int, success: bool): string
  {
    "pie " + IntToString(x) + " " + IntToString(y) + (if success then " 1\n" else " 0\n")
  }

  /** `plv #id level`. */
  function PlvMessage(id: int, level: nat): string
  {
    "plv #" + IntToString(id) + " " + NatToString(level) + "\n"
  }

  /** One participant of `pic`: " #" and the id in decimal. */
  function Tag(id: int): string
  {
    " #" + IntToString(id)
  }

  /** The participant part of `pic`: the tag of each id, in order. */
  function IdList(ids: seq<int>): (s: string)
    ensures ids == [] <==> s == []
  {
    if ids == [] then "" else Tag(ids[0]) + IdList(ids[1..])
  }

  lemma {:induction false} IdListSnoc(ids: seq<int>, id: int)
    ensures IdList(ids + [id]) == IdList(ids) + Tag(id)
  {
    if ids != [] {
      assert (ids + [id])[1..] == ids[1..] + [id];
      IdListSnoc(ids[1..], id);
    }
  }

  /** `pic x y level #id ...`, the ids written in decimal. */
  function PicMessage(x: int, y: int, level: nat, ids: seq<int>): string
  {
    "pic " + IntToString(x) + " " + IntToString(y) + " " + NatToString(level) + IdList(ids) + "\n"
  }

  /**
   * One participant of `pic` as incantationPrinting writes it:
   * `std::string += int` appends the id converted to one character, so the
   * id reaches the client as a single byte (its value modulo 256).
   */
  function ByteTag(id: int): string
  {
    " #" + [(id % 256) as char]
  }

  /** The participant part of `pic` as incantationPrinting builds it: the byte tag of each id, in order. */
  function IdListAsWritten(ids: seq<int>): (s: string)
    ensures |s| == 3 * |ids|
  {
    if ids == [] then "" else ByteTag(ids[0]) + IdListAsWritten(ids[1..])
  }

  lemma {:induction false} IdListAsWrittenSnoc(ids: seq<int>, id: int)
    ensures IdListAsWritten(ids + [id]) == IdListAsWritten(ids) + ByteTag(id)
  {
    if ids != [] {
      assert (ids + [id])[1..] == ids[1..] + [id];
      IdListAsWrittenSnoc(ids[1..], id);
    }
  }

  /** Character 3k + 2 of the participant part is the byte of the k-th id: every id survives only modulo 256. */
  lemma {:induction false} IdListAsWrittenBytes(ids: seq<int>, k: nat)
    requires k < |ids|
    ensures IdListAsWritten(ids)[3 * k..3 * k + 3] == " #" + [(ids[k] % 256) as char]
  {
    if k > 0 {
      IdListAsWrittenBytes(ids[1..], k - 1);
      assert IdListAsWritten(ids) == ByteTag(ids[0]) + IdListAsWritten(ids[1..]);
    }
  }

  /** `pic x y level #c ...` as incantationPrinting sends it, one character per id. */
  function PicMessageAsWritten(x: int, y: int, level: nat, ids: seq<int>): string
  {
    "pic " + IntToString(x) + " " + IntToString(y) + " " + NatToString(level) + IdListAsWritten(ids) + "\n"
  }

  /** Any id of two or more digits is written differently from its decimal form. */
  lemma IdListAsWrittenDiffers(id: int)
    requires id >= 10
    ensures IdListAsWritten([id]) != IdList([id])
  {
    assert |IntToString(id)| >= 2 by {
      assert IntToString(id) == NatToString(id);
      assert NatToString(id) == NatToString(id / 10) + [DigitChar(id % 10)];
    }
    assert |IdList([id])| == 2 + |IntToString(id)|;
  }

  /** Concretely: the player with id 12 is listed as " #" followed by the form-feed character. */
  lemma IdListAsWrittenExample()
    ensures IdListAsWritten([12]) == " #\U{C}"
    ensures IdList([12]) == " #12"
  {
    assert NatToString(12) == NatToString(1) + [DigitChar(2)];
  }

  // ---- The ritual, player by player -----------------------------------------

  /** _setPrayer's step for one player: a free player becomes busy and prays; a busy one is left alone. */
  function Join(p: ServerPlayer): ServerPlayer
  {
    if p.inAction then p else p.(inAction := true, praying := true)
  }

  /** The end of incantationPrinting for the initiator: the wait, then, if it completed, the prayer. */
  function Printed(p: ServerPlayer, ejectedMeanwhile: bool): ServerPlayer
  {
    var w := Waited(p, Incantation, ejectedMeanwhile);
    if WaitCompletes(p, Incantation, ejectedMeanwhile) then w.(praying := true) else w
  }

  /** _elevatePlayer's step for a praying player: one level up, no longer praying nor in action. */
  function Elevate(p: ServerPlayer): ServerPlayer
  {
    p.(level := p.level + 1, praying := false, inAction := false)
  }

  /** The initiator set free at the end of handleIncantation. */
  function Released(p: ServerPlayer): ServerPlayer
  {
    p.(inAction := false, praying := false)
  }

  /** A player of the initiator's list once _setPrayer and incantationPrinting are over. */
  function Prepared(p: ServerPlayer, initiator: bool, ejectedMeanwhile: bool): ServerPlayer
  {
    if initiator then Printed(Join(p), ejectedMeanwhile) else Join(p)
  }

  /** A player of the initiator's list through the whole of handleIncantation. */
  function Ritual(p: ServerPlayer, initiator: bool, ejectedMeanwhile: bool): ServerPlayer
  {
    var w := Prepared(p, initiator, ejectedMeanwhile);
    var r := if w.praying then Elevate(w) else w;
    if initiator then Released(r) else r
  }

  /** Whether a player of the list is raised: the initiator when its wait completed, any other player that prays or is free. */
  predicate Raised(p: ServerPlayer, initiator: bool, ejectedMeanwhile: bool)
  {
    if initiator then !p.interrupted && !ejectedMeanwhile else p.praying || !p.inAction
  }

  /**
   * What the ritual does to one player: a raised player gains exactly one
   * level and ends neither praying nor busy; any other player keeps its
   * level, and one that is not the initiator is left as it was. The
   * initiator always ends free. Nobody moves, and the inventory, the
   * identity and the connection are untouched.
   */
  lemma RitualOutcome(p: ServerPlayer, initiator: bool, ejectedMeanwhile: bool)
    ensures var r := Ritual(p, initiator, ejectedMeanwhile);
      r.level == (if Raised(p, initiator, ejectedMeanwhile) then p.level + 1 else p.level)
      && (Raised(p, initiator, ejectedMeanwhile) || initiator ==> !r.praying && !r.inAction)
      && (!Raised(p, initiator, ejectedMeanwhile) && !initiator ==> r == p)
      && r.x == p.x && r.y == p.y && r.id == p.id && r.socket == p.socket
      && r.inventory == p.inventory && r.orientation == p.orientation && r.queue == p.queue
  {
  }

  // ---- Who a loop addresses, and what it sends ------------------------------

  /**
   * The players of a list a loop acts on: those free when _setPrayer reaches
   * them, those praying, those praying once _setPrayer has run (the `pic`
   * list), and those praying when _elevatePlayer runs.
   */
  datatype Phase = Setting | Praying | Printing | Raising(initiator: nat, ejectedMeanwhile: bool)

  predicate Addressed(ph: Phase, o: nat, p: ServerPlayer)
  {
    match ph
    case Setting => !p.inAction
    case Praying => p.praying
    case Printing => Join(p).praying
    case Raising(s, ej) => Prepared(p, o == s, ej).praying
  }

  /** Every index of the list names a player. */
  predicate AllIn(players: seq<ServerPlayer>, list: seq<nat>)
  {
    forall k :: 0 <= k < |list| ==> list[k] < |players|
  }

  /** The indices of list the phase addresses, in list order. */
  function Picked(players: seq<ServerPlayer>, list: seq<nat>, ph: Phase): (r: seq<nat>)
    requires AllIn(players, list)
    ensures AllIn(players, r)
  {
    if list == [] then []
    else
      var n := |list| - 1;
      Picked(players, list[..n], ph) + if Addressed(ph, list[n], players[list[n]]) then [list[n]] else []
  }

  /** The same text sent to each player of list, in order. */
  function Tell(players: seq<ServerPlayer>, list: seq<nat>, text: string): seq<Sent>
    requires AllIn(players, list)
  {
    if list == [] then [] else var n := |list| - 1; Tell(players, list[..n], text) + [Sent(players[list[n]].socket, text)]
  }

  /** Telling one more player, after what was sent before. */
  lemma TellSnoc(sent: seq<Sent>, players: seq<ServerPlayer>, list: seq<nat>, o: nat, text: string)
    requires AllIn(players, list) && o < |players|
    ensures AllIn(players, list + [o])
    ensures sent + Tell(players, list + [o], text) == sent + Tell(players, list, text) + [Sent(players[o].socket, text)]
  {
    assert (list + [o])[..|list|] == list;
  }

  /** One more index of the list: Picked takes it when the phase addresses it. */
  lemma PickedSnoc(players: seq<ServerPlayer>, list: seq<nat>, i: nat, ph: Phase)
    requires AllIn(players, list) && i < |list|
    ensures AllIn(players, list[..i]) && AllIn(players, list[..i + 1])
    ensures Picked(players, list[..i + 1], ph) == Picked(players, list[..i], ph)
      + if Addressed(ph, list[i], players[list[i]]) then [list[i]] else []
  {
    assert list[..i + 1][..i] == list[..i];
  }

  /** The ids of the players of list, in order. */
  function Ids(players: seq<ServerPlayer>, list: seq<nat>): seq<int>
    requires AllIn(players, list)
  {
    if list == [] then [] else var n := |list| - 1; Ids(players, list[..n]) + [players[list[n]].id]
  }

  lemma IdsSnoc(players: seq<ServerPlayer>, list: seq<nat>, o: nat)
    requires AllIn(players, list) && o < |players|
    ensures AllIn(players, list + [o])
    ensures Ids(players, list + [o]) == Ids(players, list) + [players[o].id]
  {
    assert (list + [o])[..|list|] == list;
  }

  /** Picked keeps exactly the addressed indices of the list. */
  lemma {:induction false} PickedMembers(players: seq<ServerPlayer>, list: seq<nat>, ph: Phase)
    requires AllIn(players, list)
    ensures forall o :: o in Picked(players, list, ph) <==> o in list && Addressed(ph, o, players[o])
  {
    if list != [] {
      var n := |list| - 1;
      PickedMembers(players, list[..n], ph);
      assert list == list[..n] + [list[n]];
    }
  }

  /** Picked keeps the order of the list. */
  lemma {:induction false} PickedAscending(players: seq<ServerPlayer>, list: seq<nat>, ph: Phase)
    requires AllIn(players, list) && Ascending(list)
    ensures Ascending(Picked(players, list, ph))
  {
    if list != [] {
      var n := |list| - 1;
      var front := list[..n];
      PickedAscending(players, front, ph);
      PickedMembers(players, front, ph);
      var pf := Picked(players, front, ph);
      if Addressed(ph, list[n], players[list[n]]) {
        forall k | 0 <= k < |pf| ensures pf[k] < list[n] {
          assert pf[k] in front;
        }
      }
    }
  }

  /** The players of the selection for q that the phase addresses. */
  lemma PickedFromSelection(players: seq<ServerPlayer>, ph: Phase, q: Query)
    ensures AllIn(players, Selected(players, q))
    ensures var r := Picked(players, Selected(players, q), ph);
      Ascending(r) && forall o :: o in r <==> 0 <= o < |players| && Matches(q, players[o]) && Addressed(ph, o, players[o])
  {
    var list := Selected(players, q);
    SelectedSpec(players, q);
    PickedMembers(players, list, ph);
    PickedAscending(players, list, ph);
  }

  // ---- The steps of handleIncantation ---------------------------------------

  /** The two loops that change players: _setPrayer's and _elevatePlayer's. */
  datatype Turn = Joining | Elevating

  /** The phase whose players a turn acts on. */
  function PhaseOf(t: Turn): Phase
  {
    match t
    case Joining => Setting
    case Elevating => Praying
  }

  /** A player a turn acts on, changed: set busy and praying, or raised one level. */
  function Changed(t: Turn, p: ServerPlayer): ServerPlayer
  {
    match t
    case Joining => p.(inAction := true, praying := true)
    case Elevating => Elevate(p)
  }

  /** What a turn tells a player it acts on (the level is the one reached). */
  function Note(t: Turn, p: ServerPlayer): string
  {
    match t
    case Joining => Underway
    case Elevating => LevelText(p.level + 1)
  }

  /** A player after a turn reached it: changed when the turn acts on it. */
  function Apply(t: Turn, p: ServerPlayer): ServerPlayer
  {
    if Addressed(PhaseOf(t), 0, p) then Changed(t, p) else p
  }

  /** One turn of the loop, on player o. */
  function TurnOn(players: seq<ServerPlayer>, o: nat, t: Turn): (r: seq<ServerPlayer>)
    requires o < |players|
    ensures |r| == |players|
  {
    if Addressed(PhaseOf(t), o, players[o]) then players[o := Changed(t, players[o])] else players
  }

  /** What one turn sends. */
  function SentOn(players: seq<ServerPlayer>, o: nat, t: Turn): seq<Sent>
    requires o < |players|
  {
    if Addressed(PhaseOf(t), o, players[o]) then [Sent(players[o].socket, Note(t, players[o]))] else []
  }

  /** The players after the loop has visited the first i indices of list. */
  function Through(players: seq<ServerPlayer>, list: seq<nat>, i: nat, t: Turn): (r: seq<ServerPlayer>)
    requires AllIn(players, list) && i <= |list|
    ensures |r| == |players|
  {
    if i == 0 then players else TurnOn(Through(players, list, i - 1, t), list[i - 1], t)
  }

  /** The messages the loop has sent after visiting the first i indices of list. */
  function SentThrough(players: seq<ServerPlayer>, list: seq<nat>, i: nat, t: Turn): seq<Sent>
    requires AllIn(players, list) && i <= |list|
  {
    if i == 0 then [] else SentThrough(players, list, i - 1, t) + SentOn(Through(players, list, i - 1, t), list[i - 1], t)
  }

  /** cur is players with exactly the visited ones taken through the turn. */
  ghost predicate AppliedExactly(players: seq<ServerPlayer>, cur: seq<ServerPlayer>, visited: seq<nat>, t: Turn)
  {
    |cur| == |players| && forall o :: 0 <= o < |players| ==> cur[o] == if o in visited then Apply(t, players[o]) else players[o]
  }

  /** A turn on an index not yet visited applies to that player only. */
  lemma TurnOnApplies(players: seq<ServerPlayer>, cur: seq<ServerPlayer>, visited: seq<nat>, o: nat, t: Turn)
    requires AppliedExactly(players, cur, visited, t) && o < |players| && o !in visited
    ensures AppliedExactly(players, TurnOn(cur, o, t), visited + [o], t)
    ensures SentOn(cur, o, t) == SentOn(players, o, t)
  {
  }

  /** No index among the first i of list comes twice. */
  predicate FreshUpTo(list: seq<nat>, i: nat)
    requires i <= |list|
  {
    i == 0 || (FreshUpTo(list, i - 1) && list[i - 1] !in list[..i - 1])
  }

  lemma {:induction false} AscendingFreshUpTo(list: seq<nat>, i: nat)
    requires Ascending(list) && i <= |list|
    ensures FreshUpTo(list, i)
  {
    if i > 0 {
      AscendingFreshUpTo(list, i - 1);
      AscendingFresh(list, i - 1);
    }
  }

  /** A prefix of one more element is the shorter prefix and that element. */
  lemma TakeSnoc<T>(list: seq<T>, i: nat)
    requires 0 < i <= |list|
    ensures list[..i] == list[..i - 1] + [list[i - 1]]
  {
  }

  /** What a turn sends to a player that gets the common text is the telling of that player when picked. */
  lemma SentOnTells(players: seq<ServerPlayer>, picked: seq<nat>, o: nat, t: Turn, text: string)
    requires AllIn(players, picked) && o < |players|
    requires Addressed(PhaseOf(t), o, players[o]) ==> Note(t, players[o]) == text
    ensures var more := picked + if Addressed(PhaseOf(t), o, players[o]) then [o] else [];
      AllIn(players, more) && Tell(players, picked, text) + SentOn(players, o, t) == Tell(players, more, text)
  {
    if Addressed(PhaseOf(t), o, players[o]) {
      TellSnoc([], players, picked, o, text);
    } else {
      assert picked + [] == picked;
      assert Tell(players, picked, text) + [] == Tell(players, picked, text);
    }
  }

  /** Over a list with no index twice, the loop takes exactly the listed players through the turn. */
  lemma {:induction false} ThroughApplies(players: seq<ServerPlayer>, list: seq<nat>, i: nat, t: Turn)
    requires AllIn(players, list) && i <= |list| && FreshUpTo(list, i)
    ensures AppliedExactly(players, Through(players, list, i, t), list[..i], t)
  {
    if i > 0 {
      ThroughApplies(players, list, i - 1, t);
      TurnOnApplies(players, Through(players, list, i - 1, t), list[..i - 1], list[i - 1], t);
      TakeSnoc(list, i);
    }
  }

  /** ... and, when every player it acts on gets the same text, tells exactly those, in list order. */
  lemma {:induction false} ThroughTells(players: seq<ServerPlayer>, list: seq<nat>, i: nat, t: Turn, text: string)
    requires AllIn(players, list) && i <= |list| && FreshUpTo(list, i)
    requires forall k :: 0 <= k < i && Addressed(PhaseOf(t), list[k], players[list[k]]) ==> Note(t, players[list[k]]) == text
    ensures AllIn(players, list[..i])
    ensures SentThrough(players, list, i, t) == Tell(players, Picked(players, list[..i], PhaseOf(t)), text)
  {
    if i > 0 {
      ThroughTells(players, list, i - 1, t, text);
      ThroughApplies(players, list, i - 1, t);
      var o := list[i - 1];
      TurnOnApplies(players, Through(players, list, i - 1, t), list[..i - 1], o, t);
      PickedSnoc(players, list, i - 1, PhaseOf(t));
      SentOnTells(players, Picked(players, list[..i - 1], PhaseOf(t)), o, t, text);
    }
  }

  /** The whole loop over an ascending list: AppliedExactly and the telling of the picked players. */
  lemma LoopOutcome(players: seq<ServerPlayer>, list: seq<nat>, t: Turn, text: string)
    requires AllIn(players, list) && Ascending(list)
    requires forall k :: 0 <= k < |list| && Addressed(PhaseOf(t), list[k], players[list[k]]) ==> Note(t, players[list[k]]) == text
    ensures AppliedExactly(players, Through(players, list, |list|, t), list, t)
    ensures SentThrough(players, list, |list|, t) == Tell(players, Picked(players, list, PhaseOf(t)), text)
  {
    AscendingFreshUpTo(list, |list|);
    ThroughApplies(players, list, |list|, t);
    ThroughTells(players, list, |list|, t, text);
    assert list[..|list|] == list;
  }

  /**
   * The loop of _setPrayer or _elevatePlayer over list: each player, in
   * order, that the turn acts on is changed and told (TurnOn, SentOn).
   */
  method TurnAll(h: CommandHandler, list: seq<nat>, t: Turn)
    requires AllIn(h.players, list)
    modifies h`players, h`sent
    ensures h.players == Through(old(h.players), list, |list|, t)
    ensures h.sent == old(h.sent) + SentThrough(old(h.players), list, |list|, t)
  {
    ghost var p0 := h.players;
    var i := 0;
    while i < |list|
      invariant 0 <= i <= |list|
      invariant h.players == Through(p0, list, i, t)
      invariant h.sent == old(h.sent) + SentThrough(p0, list, i, t)
    {
      var o := list[i];
      var p := h.players[o];
      if Addressed(PhaseOf(t), o, p) {
        h.players := h.players[o := Changed(t, p)];
        SendTo(h, p, Note(t, p));
      }
      i := i + 1;
    }
  }

  /** The players _setPrayer gathers for an incantation started by player s. */
  function Gathered(players: seq<ServerPlayer>, s: nat): (list: seq<nat>)
    requires s < |players|
    ensures AllIn(players, list) && Ascending(list)
  {
    SelectedSpec(players, ForIncant(players[s]));
    Selected(players, ForIncant(players[s]))
  }

  /**
   * _setPrayer for player s: each player _getPlayersForIncant finds for it,
   * in order, if not already busy, becomes busy, prays and is told
   * "Elevation underway\n". Every gathered player ends as Join made it,
   * everybody else is unchanged, and exactly the players that were free are
   * told.
   */
  method SetPrayer(h: CommandHandler, s: nat)
    requires s < |h.players|
    modifies h`players, h`sent
    ensures var list := Gathered(old(h.players), s);
      AppliedExactly(old(h.players), h.players, list, Joining)
      && h.sent == old(h.sent) + Tell(old(h.players), Picked(old(h.players), list, Setting), Underway)
  {
    var list := GetPlayers(h, ForIncant(h.players[s]));
    assert list == Gathered(h.players, s);
    LoopOutcome(h.players, list, Joining, Underway);
    TurnAll(h, list, Joining);
  }

  /** The players _getPlayersIncanting finds for player p: those praying on its tile at its level. */
  function Incanting(p: ServerPlayer): Query
  {
    Query(p.x, p.y, p.level, true)
  }

  /**
   * _elevatePlayer for player s: each player praying on its tile at its
   * level, in order, rises one level, stops praying, is set free and is
   * told its new level; nobody else changes.
   */
  method ElevatePlayer(h: CommandHandler, s: nat)
    requires s < |h.players|
    modifies h`players, h`sent
    ensures var list := Selected(old(h.players), Incanting(old(h.players[s])));
      AppliedExactly(old(h.players), h.players, list, Elevating)
      && h.sent == old(h.sent) + Tell(old(h.players), Picked(old(h.players), list, Praying), LevelText(old(h.players[s].level) + 1))
  {
    var q := Incanting(h.players[s]);
    var list := GetPlayers(h, q);
    SelectedSpec(h.players, q);
    forall k | 0 <= k < |list| ensures h.players[list[k]].level == q.level {
      assert list[k] in list;
    }
    LoopOutcome(h.players, list, Elevating, LevelText(q.level + 1));
    TurnAll(h, list, Elevating);
  }

  /** One more player of the list adds its tag to the participants when it prays. */
  lemma PicStep(players: seq<ServerPlayer>, list: seq<nat>, i: nat)
    requires AllIn(players, list) && i < |list|
    ensures AllIn(players, list[..i]) && AllIn(players, list[..i + 1])
    ensures var before := IdListAsWritten(Ids(players, Picked(players, list[..i], Praying)));
      var after := IdListAsWritten(Ids(players, Picked(players, list[..i + 1], Praying)));
      (players[list[i]].praying ==> after == before + ByteTag(players[list[i]].id))
      && (!players[list[i]].praying ==> after == before)
  {
    PickedSnoc(players, list, i, Praying);
    var before := Picked(players, list[..i], Praying);
    if players[list[i]].praying {
      IdsSnoc(players, before, list[i]);
      IdListAsWrittenSnoc(Ids(players, before), players[list[i]].id);
    } else {
      assert before + [] == before;
    }
  }

  /**
   * The participant part of `pic` as incantationPrinting's loop builds it:
   * a tag for each player of list that prays, in order, each id appended
   * as one character.
   */
  method PicParticipants(players: seq<ServerPlayer>, list: seq<nat>) returns (text: string)
    requires AllIn(players, list)
    ensures text == IdListAsWritten(Ids(players, Picked(players, list, Praying)))
  {
    text := "";
    var i := 0;
    while i < |list|
      invariant 0 <= i <= |list| && AllIn(players, list[..i])
      invariant text == IdListAsWritten(Ids(players, Picked(players, list[..i], Praying)))
    {
      PicStep(players, list, i);
      var p := players[list[i]];
      if p.praying {
        text := text + ByteTag(p.id);
      }
      i := i + 1;
    }
    assert list[..i] == list;
  }

  /** The `pic` line incantationPrinting sends for player p: its tile, its level and the praying players there. */
  function Pic(players: seq<ServerPlayer>, p: ServerPlayer): string
  {
    PicMessageAsWritten(p.x, p.y, p.level, Ids(players, Picked(players, Selected(players, ForIncant(p)), Praying)))
  }

  /** The first part of incantationPrinting: the `pic` line to every graphical client. */
  method PrintPic(h: CommandHandler, s: nat)
    requires s < |h.players|
    modifies h`sent
    ensures h.sent == old(h.sent) + ToEach(GuiSockets(h.teams, h.players), Pic(h.players, h.players[s]))
  {
    var p := h.players[s];
    var list := GetPlayers(h, ForIncant(p));
    var ids := PicParticipants(h.players, list);
    MessageToGui(h, "pic " + IntToString(p.x) + " " + IntToString(p.y) + " " + NatToString(p.level) + ids + "\n");
  }

  /**
   * The players after the conditions are checked again for player s: on
   * failure it stops praying and acting, on success it prays.
   */
  function Rechecked(tiles: Grid, width: nat, height: nat, players: seq<ServerPlayer>, s: nat): (r: seq<ServerPlayer>)
    requires s < |players| && OnGrid(tiles, width, height, players[s]) && players[s].level >= MinLevel
    ensures |r| == |players| && forall o :: 0 <= o < |r| && o != s ==> r[o] == players[o]
    ensures r[s].praying == CheckIncantationConditions(tiles, width, height, players, players[s])
  {
    var p := players[s];
    if CheckIncantationConditions(tiles, width, height, players, p) then players[s := p.(praying := true)]
    else players[s := Released(p)]
  }

  /** What the re-check sends: nothing on success; `pie x y 0` to the graphical clients and "ko\n" to the player on failure. */
  function RecheckReplies(tiles: Grid, width: nat, height: nat, teams: seq<Team>, players: seq<ServerPlayer>, s: nat): (r: seq<Sent>)
    requires s < |players| && OnGrid(tiles, width, height, players[s]) && players[s].level >= MinLevel
    ensures r == [] <==> CheckIncantationConditions(tiles, width, height, players, players[s])
  {
    var p := players[s];
    if CheckIncantationConditions(tiles, width, height, players, p) then []
    else Refusal(GuiSockets(teams, players), p)
  }

  /**
   * The last part of incantationPrinting, once the wait completed: the
   * conditions checked again; on failure `pie x y 0` to the graphical
   * clients, the player stops praying and acting and is told "ko\n"; on
   * success it prays.
   */
  method Recheck(h: CommandHandler, s: nat)
    requires s < |h.players| && OnGrid(h.tiles, h.width, h.height, h.players[s]) && h.players[s].level >= MinLevel
    modifies h`players, h`sent
    ensures h.players == Rechecked(h.tiles, h.width, h.height, old(h.players), s)
    ensures h.sent == old(h.sent) + RecheckReplies(h.tiles, h.width, h.height, h.teams, old(h.players), s)
  {
    var p := h.players[s];
    var ok := CheckIncantationConditions(h.tiles, h.width, h.height, h.players, p);
    if ok {
      h.players := h.players[s := p.(praying := true)];
    } else {
      CallOff(h, s);
    }
  }

  /** A ritual that does not take place: `pie x y 0` to the graphical clients, then "ko\n" to the player. */
  function Refusal(gui: seq<int>, p: ServerPlayer): (r: seq<Sent>)
    ensures |r| == |gui| + 1 && r[|gui|] == Sent(p.socket, "ko\n")
    ensures forall k :: 0 <= k < |gui| ==> r[k] == Sent(gui[k], PieMessage(p.x, p.y, false))
  {
    ToEach(gui, PieMessage(p.x, p.y, false)) + [Sent(p.socket, "ko\n")]
  }

  /** The refusal, sent for player s; nobody changes. */
  method Refuse(h: CommandHandler, s: nat)
    requires s < |h.players|
    modifies h`sent
    ensures h.sent == old(h.sent) + Refusal(GuiSockets(h.teams, h.players), h.players[s])
  {
    var p := h.players[s];
    MessageToGui(h, PieMessage(p.x, p.y, false));
    SendTo(h, p, "ko\n");
    Regroup(old(h.sent), ToEach(GuiSockets(h.teams, h.players), PieMessage(p.x, p.y, false)), [Sent(p.socket, "ko\n")]);
  }

  /** The re-check failed: the refusal, and the player set free. */
  method CallOff(h: CommandHandler, s: nat)
    requires s < |h.players|
    modifies h`players, h`sent
    ensures h.players == old(h.players)[s := Released(old(h.players[s]))]
    ensures h.sent == old(h.sent) + Refusal(GuiSockets(h.teams, old(h.players)), old(h.players[s]))
  {
    Refuse(h, s);
    h.players := h.players[s := Released(h.players[s])];
  }

  /** The players after incantationPrinting for player s: the wait, then, when it completed, the re-check. */
  function AfterPrinting(tiles: Grid, width: nat, height: nat, players: seq<ServerPlayer>, s: nat, ejectedMeanwhile: bool): (r: seq<ServerPlayer>)
    requires s < |players| && OnGrid(tiles, width, height, players[s]) && players[s].level >= MinLevel
    ensures |r| == |players| && forall o :: 0 <= o < |r| && o != s ==> r[o] == players[o]
  {
    var waited := players[s := Waited(players[s], Incantation, ejectedMeanwhile)];
    if WaitCompletes(players[s], Incantation, ejectedMeanwhile) then Rechecked(tiles, width, height, waited, s)
    else waited
  }

  /** What incantationPrinting sends after `pic`: the re-check's replies when the wait completed. */
  function AfterPrintingReplies(tiles: Grid, width: nat, height: nat, teams: seq<Team>, players: seq<ServerPlayer>, s: nat,
                          ejectedMeanwhile: bool): seq<Sent>
    requires s < |players| && OnGrid(tiles, width, height, players[s]) && players[s].level >= MinLevel
  {
    var waited := players[s := Waited(players[s], Incantation, ejectedMeanwhile)];
    if WaitCompletes(players[s], Incantation, ejectedMeanwhile) then RecheckReplies(tiles, width, height, teams, waited, s)
    else []
  }

  /** The wait touches neither a player's socket nor its team, so the same graphical clients hear of it. */
  lemma WaitedGuiSockets(teams: seq<Team>, players: seq<ServerPlayer>, s: nat, limit: TimeLimit, ejectedMeanwhile: bool)
    requires s < |players|
    ensures GuiSockets(teams, players[s := Waited(players[s], limit, ejectedMeanwhile)]) == GuiSockets(teams, players)
  {
    GuiSocketsKept(teams, players, players[s := Waited(players[s], limit, ejectedMeanwhile)]);
  }

  /** incantationPrinting after the `pic` line: the wait, then, when it completed, the re-check. */
  method AwaitRitual(h: CommandHandler, s: nat, ejectedMeanwhile: bool)
    requires s < |h.players| && OnGrid(h.tiles, h.width, h.height, h.players[s]) && h.players[s].level >= MinLevel
    modifies h`players, h`sent
    ensures h.players == AfterPrinting(h.tiles, h.width, h.height, old(h.players), s, ejectedMeanwhile)
    ensures h.sent == old(h.sent) + AfterPrintingReplies(h.tiles, h.width, h.height, h.teams, old(h.players), s, ejectedMeanwhile)
  {
    var completed := WaitCommand(h, s, Incantation, ejectedMeanwhile);
    if !completed {
      assert h.sent == old(h.sent) + [];
      return;
    }
    Recheck(h, s);
  }

  /**
   * incantationPrinting for player s: `pic` with the praying players of its
   * tile goes to the graphical clients, then the incantation's wait. A wait
   * cut short ends it there. Otherwise the conditions are checked again
   * (Recheck).
   */
  method IncantationPrinting(h: CommandHandler, s: nat, ejectedMeanwhile: bool)
    requires s < |h.players| && OnGrid(h.tiles, h.width, h.height, h.players[s]) && h.players[s].level >= MinLevel
    modifies h`players, h`sent
    ensures h.players == AfterPrinting(h.tiles, h.width, h.height, old(h.players), s, ejectedMeanwhile)
    ensures h.sent == old(h.sent) + (ToEach(GuiSockets(h.teams, old(h.players)), Pic(old(h.players), old(h.players[s])))
                      + AfterPrintingReplies(h.tiles, h.width, h.height, h.teams, old(h.players), s, ejectedMeanwhile))
  {
    PrintPic(h, s);
    ghost var picked := h.sent;
    AwaitRitual(h, s, ejectedMeanwhile);
    Regroup(old(h.sent), picked[|old(h.sent)|..], h.sent[|picked|..]);
  }

  // ---- handleIncantation as a whole -----------------------------------------

  /** b keeps every player of a where it was, with its connection, team and id: only flags and levels changed. */
  ghost predicate Kept(a: seq<ServerPlayer>, b: seq<ServerPlayer>)
  {
    |a| == |b| && forall o :: 0 <= o < |a| ==>
      b[o].socket == a[o].socket && b[o].team == a[o].team && b[o].id == a[o].id && b[o].x == a[o].x && b[o].y == a[o].y
  }

  lemma KeptGui(teams: seq<Team>, a: seq<ServerPlayer>, b: seq<ServerPlayer>)
    requires Kept(a, b)
    ensures GuiSockets(teams, b) == GuiSockets(teams, a)
  {
    GuiSocketsKept(teams, a, b);
  }

  lemma {:induction false} TellKept(a: seq<ServerPlayer>, b: seq<ServerPlayer>, list: seq<nat>, text: string)
    requires Kept(a, b) && AllIn(a, list)
    ensures AllIn(b, list) && Tell(b, list, text) == Tell(a, list, text)
  {
    if list != [] {
      TellKept(a, b, list[..|list| - 1], text);
    }
  }

  lemma {:induction false} IdsKept(a: seq<ServerPlayer>, b: seq<ServerPlayer>, list: seq<nat>)
    requires Kept(a, b) && AllIn(a, list)
    ensures AllIn(b, list) && Ids(b, list) == Ids(a, list)
  {
    if list != [] {
      IdsKept(a, b, list[..|list| - 1]);
    }
  }

  /** Two phases that address the same indices of a list pick the same ones. */
  lemma {:induction false} PickedAgree(a: seq<ServerPlayer>, b: seq<ServerPlayer>, list: seq<nat>, pa: Phase, pb: Phase)
    requires |a| == |b| && AllIn(a, list)
    requires forall k :: 0 <= k < |list| ==> Addressed(pa, list[k], a[list[k]]) == Addressed(pb, list[k], b[list[k]])
    ensures AllIn(b, list) && Picked(a, list, pa) == Picked(b, list, pb)
  {
    if list != [] {
      PickedAgree(a, b, list[..|list| - 1], pa, pb);
    }
  }

  /** A player keeps its tile and level through everything but the level-up. */
  predicate SamePlace(p: ServerPlayer, q: ServerPlayer)
  {
    q.x == p.x && q.y == p.y && q.level == p.level
  }

  /** Players that keep their tiles and levels are found by the same search for a player whose tile and level stay too. */
  lemma SelectionKept(a: seq<ServerPlayer>, b: seq<ServerPlayer>, p: ServerPlayer)
    requires |a| == |b| && forall o :: 0 <= o < |a| ==> SamePlace(a[o], b[o])
    ensures Selected(b, ForIncant(p)) == Selected(a, ForIncant(p))
  {
    MatchingKept(a, b, |a|, ForIncant(p));
  }

  /** cur is players once _setPrayer and incantationPrinting are over for initiator s. */
  ghost predicate PreparedExactly(players: seq<ServerPlayer>, cur: seq<ServerPlayer>, s: nat, ejectedMeanwhile: bool)
    requires s < |players|
  {
    |cur| == |players| && forall o :: 0 <= o < |players| ==>
      cur[o] == if o in Gathered(players, s) then Prepared(players[o], o == s, ejectedMeanwhile) else players[o]
  }

  /** What _setPrayer leaves: the same places and connections, the initiator joined, the same selection. */
  lemma JoinedFacts(players: seq<ServerPlayer>, joined: seq<ServerPlayer>, s: nat)
    requires s < |players| && AppliedExactly(players, joined, Gathered(players, s), Joining)
    ensures Kept(players, joined) && s in Gathered(players, s) && joined[s] == Join(players[s])
    ensures forall o :: 0 <= o < |players| ==> SamePlace(players[o], joined[o])
    ensures Selected(joined, ForIncant(joined[s])) == Gathered(players, s)
  {
    SelectedSpec(players, ForIncant(players[s]));
    SelectionKept(players, joined, players[s]);
  }

  /** The `pic` line after _setPrayer lists the players that pray once it is over, with their ids before it. */
  lemma JoinedPic(players: seq<ServerPlayer>, joined: seq<ServerPlayer>, s: nat)
    requires s < |players| && AppliedExactly(players, joined, Gathered(players, s), Joining)
    ensures var p, list := players[s], Gathered(players, s);
      Pic(joined, joined[s]) == PicMessageAsWritten(p.x, p.y, p.level, Ids(players, Picked(players, list, Printing)))
  {
    JoinedIds(players, joined, s);
    JoinedFacts(players, joined, s);
    var p, q := players[s], joined[s];
    assert q.x == p.x && q.y == p.y && q.level == p.level;
  }

  /** The ids the `pic` line lists after _setPrayer, in terms of the players before it. */
  lemma JoinedIds(players: seq<ServerPlayer>, joined: seq<ServerPlayer>, s: nat)
    requires s < |players| && AppliedExactly(players, joined, Gathered(players, s), Joining)
    ensures var list := Gathered(players, s);
      AllIn(joined, Selected(joined, ForIncant(joined[s])))
      && Ids(joined, Picked(joined, Selected(joined, ForIncant(joined[s])), Praying)) == Ids(players, Picked(players, list, Printing))
  {
    var list := Gathered(players, s);
    JoinedFacts(players, joined, s);
    forall k | 0 <= k < |list| ensures Addressed(Praying, list[k], joined[list[k]]) == Addressed(Printing, list[k], players[list[k]]) {
      assert list[k] in list;
    }
    PickedAgree(joined, players, list, Praying, Printing);
    IdsKept(joined, players, Picked(players, list, Printing));
  }

  /**
   * The re-check after the wait sees what the first check saw: the same
   * tile, and the same players on it at the same level.
   */
  lemma RecheckPasses(tiles: Grid, width: nat, height: nat, teams: seq<Team>, players: seq<ServerPlayer>, joined: seq<ServerPlayer>, s: nat,
                      ejectedMeanwhile: bool)
    requires s < |players| && OnGrid(tiles, width, height, players[s]) && players[s].level >= MinLevel
    requires CheckIncantationConditions(tiles, width, height, players, players[s])
    requires AppliedExactly(players, joined, Gathered(players, s), Joining)
    ensures OnGrid(tiles, width, height, joined[s]) && joined[s].level >= MinLevel
    ensures AfterPrinting(tiles, width, height, joined, s, ejectedMeanwhile) == joined[s := Prepared(players[s], true, ejectedMeanwhile)]
    ensures AfterPrintingReplies(tiles, width, height, teams, joined, s, ejectedMeanwhile) == []
  {
    JoinedFacts(players, joined, s);
    var w := Waited(joined[s], Incantation, ejectedMeanwhile);
    var waited := joined[s := w];
    if WaitCompletes(joined[s], Incantation, ejectedMeanwhile) {
      SelectionKept(joined, waited, w);
      assert CheckIncantationConditions(tiles, width, height, waited, w);
    }
  }

  /** After the wait the players are as PreparedExactly says. */
  lemma PreparedFacts(players: seq<ServerPlayer>, joined: seq<ServerPlayer>, s: nat, ejectedMeanwhile: bool)
    requires s < |players| && AppliedExactly(players, joined, Gathered(players, s), Joining)
    ensures PreparedExactly(players, joined[s := Prepared(players[s], true, ejectedMeanwhile)], s, ejectedMeanwhile)
  {
    JoinedFacts(players, joined, s);
  }

  /** What _setPrayer and incantationPrinting send for initiator s, its first check passed. */
  function PreparationReplies(teams: seq<Team>, players: seq<ServerPlayer>, s: nat): seq<Sent>
    requires s < |players|
  {
    var p, list := players[s], Gathered(players, s);
    Tell(players, Picked(players, list, Setting), Underway)
    + ToEach(GuiSockets(teams, players), PicMessageAsWritten(p.x, p.y, p.level, Ids(players, Picked(players, list, Printing))))
  }

  /** The players after the two steps of Prepare. */
  lemma PreparePlayers(tiles: Grid, width: nat, height: nat, players: seq<ServerPlayer>,
                       joined: seq<ServerPlayer>, printed: seq<ServerPlayer>, s: nat, ejectedMeanwhile: bool)
    requires s < |players| && OnGrid(tiles, width, height, players[s]) && players[s].level >= MinLevel
    requires CheckIncantationConditions(tiles, width, height, players, players[s])
    requires AppliedExactly(players, joined, Gathered(players, s), Joining)
    requires OnGrid(tiles, width, height, joined[s]) && joined[s].level >= MinLevel
    requires printed == AfterPrinting(tiles, width, height, joined, s, ejectedMeanwhile)
    ensures PreparedExactly(players, printed, s, ejectedMeanwhile)
  {
    RecheckPasses(tiles, width, height, [], players, joined, s, ejectedMeanwhile);
    PreparedFacts(players, joined, s, ejectedMeanwhile);
  }

  /** The messages of the two steps of Prepare. */
  lemma PrepareSent(tiles: Grid, width: nat, height: nat, teams: seq<Team>, players: seq<ServerPlayer>,
                    joined: seq<ServerPlayer>, s: nat, ejectedMeanwhile: bool,
                    before: seq<Sent>, middle: seq<Sent>, after: seq<Sent>)
    requires s < |players| && OnGrid(tiles, width, height, players[s]) && players[s].level >= MinLevel
    requires CheckIncantationConditions(tiles, width, height, players, players[s])
    requires AppliedExactly(players, joined, Gathered(players, s), Joining)
    requires middle == before + Tell(players, Picked(players, Gathered(players, s), Setting), Underway)
    requires OnGrid(tiles, width, height, joined[s]) && joined[s].level >= MinLevel
    requires after == middle + (ToEach(GuiSockets(teams, joined), Pic(joined, joined[s]))
                                + AfterPrintingReplies(tiles, width, height, teams, joined, s, ejectedMeanwhile))
    ensures after == before + PreparationReplies(teams, players, s)
  {
    RecheckPasses(tiles, width, height, teams, players, joined, s, ejectedMeanwhile);
    JoinedPic(players, joined, s);
    JoinedFacts(players, joined, s);
    KeptGui(teams, players, joined);
    var pic := ToEach(GuiSockets(teams, joined), Pic(joined, joined[s]));
    assert pic + [] == pic;
    Regroup(before, Tell(players, Picked(players, Gathered(players, s), Setting), Underway), pic);
  }

  /**
   * _setPrayer then incantationPrinting, the conditions met: every gathered
   * player joins, the initiator waits and then prays if the wait completed;
   * the free players are told the ritual is underway and the graphical
   * clients get the `pic` line with the players praying by then.
   */
  method Prepare(h: CommandHandler, s: nat, ejectedMeanwhile: bool)
    requires s < |h.players| && OnGrid(h.tiles, h.width, h.height, h.players[s]) && h.players[s].level >= MinLevel
    requires CheckIncantationConditions(h.tiles, h.width, h.height, h.players, h.players[s])
    modifies h`players, h`sent
    ensures PreparedExactly(old(h.players), h.players, s, ejectedMeanwhile)
    ensures h.sent == old(h.sent) + PreparationReplies(h.teams, old(h.players), s)
  {
    SetPrayer(h, s);
    ghost var joined, middle := h.players, h.sent;
    RecheckPasses(h.tiles, h.width, h.height, h.teams, old(h.players), joined, s, ejectedMeanwhile);
    IncantationPrinting(h, s, ejectedMeanwhile);
    PreparePlayers(h.tiles, h.width, h.height, old(h.players), joined, h.players, s, ejectedMeanwhile);
    PrepareSent(h.tiles, h.width, h.height, h.teams, old(h.players), joined, s, ejectedMeanwhile, old(h.sent), middle, h.sent);
  }

  /** What handleIncantation tells the graphical clients around the consumption: `pie x y 1`, `plv`, `pie x y 1`. */
  function Announcement(gui: seq<int>, p: ServerPlayer): seq<Sent>
  {
    ToEach(gui, PieMessage(p.x, p.y, true)) + ToEach(gui, PlvMessage(p.id, p.level + 1)) + ToEach(gui, PieMessage(p.x, p.y, true))
  }

  /**
   * The middle of handleIncantation for initiator p: `pie x y 1`, `plv #id
   * level+1`, the consumption of the row's stones on its tile, `pie x y 1`.
   */
  method Announce(h: CommandHandler, p: ServerPlayer)
    requires OnGrid(h.tiles, h.width, h.height, p) && CheckIncantationResources(h.tiles[p.x][p.y], p.level)
    modifies h`sent, h`tiles
    ensures h.tiles == WithTile(old(h.tiles), p.x, p.y, Consumed(old(h.tiles[p.x][p.y]), p.level))
    ensures h.sent == old(h.sent) + Announcement(GuiSockets(h.teams, h.players), p)
  {
    Herald(h, p);
    ConsumeElevationResources(h, p.x, p.y, p.level);
    MessageToGui(h, PieMessage(p.x, p.y, true));
    ghost var gui := GuiSockets(h.teams, h.players);
    ghost var pie, plv := ToEach(gui, PieMessage(p.x, p.y, true)), ToEach(gui, PlvMessage(p.id, p.level + 1));
    Regroup(old(h.sent), pie, plv);
    Regroup(old(h.sent), pie + plv, pie);
  }

  /** The first two lines of the announcement for initiator p: `pie x y 1` and `plv #id level+1`. */
  method Herald(h: CommandHandler, p: ServerPlayer)
    modifies h`sent
    ensures h.sent == old(h.sent) + ToEach(GuiSockets(h.teams, h.players), PieMessage(p.x, p.y, true))
                      + ToEach(GuiSockets(h.teams, h.players), PlvMessage(p.id, p.level + 1))
  {
    MessageToGui(h, PieMessage(p.x, p.y, true));
    MessageToGui(h, PlvMessage(p.id, p.level + 1));
  }

  /** cur is players once _elevatePlayer has run for initiator s and s has been set free. */
  ghost predicate RaisedExactly(players: seq<ServerPlayer>, cur: seq<ServerPlayer>, s: nat)
    requires s < |players|
  {
    var list := Selected(players, Incanting(players[s]));
    |cur| == |players| && forall o :: 0 <= o < |players| ==>
      var r := if o in list then Apply(Elevating, players[o]) else players[o];
      cur[o] == if o == s then Released(r) else r
  }

  /** The end of handleIncantation: _elevatePlayer, then the initiator stops acting and praying. */
  method Raise(h: CommandHandler, s: nat, ghost next: nat)
    requires s < |h.players| && next == h.players[s].level + 1
    modifies h`players, h`sent
    ensures RaisedExactly(old(h.players), h.players, s)
    ensures h.sent == old(h.sent) + Tell(old(h.players), Picked(old(h.players), Selected(old(h.players), Incanting(old(h.players)[s])), Praying),
                                         LevelText(next))
  {
    ElevatePlayer(h, s);
    h.players := h.players[s := Released(h.players[s])];
  }

  /** A list whose every index the phase addresses is picked whole. */
  lemma {:induction false} PickedWhole(players: seq<ServerPlayer>, list: seq<nat>, ph: Phase)
    requires AllIn(players, list)
    requires forall k :: 0 <= k < |list| ==> Addressed(ph, list[k], players[list[k]])
    ensures Picked(players, list, ph) == list
  {
    if list != [] {
      var n := |list| - 1;
      PickedWhole(players, list[..n], ph);
      assert list == list[..n] + [list[n]];
    }
  }

  /** Preparing keeps every player in place, with its connection; the initiator is gathered. */
  lemma PreparedKept(players: seq<ServerPlayer>, prepared: seq<ServerPlayer>, s: nat, ejectedMeanwhile: bool)
    requires s < |players| && PreparedExactly(players, prepared, s, ejectedMeanwhile)
    ensures Kept(players, prepared) && forall o :: 0 <= o < |players| ==> SamePlace(players[o], prepared[o])
    ensures s in Gathered(players, s) && prepared[s] == Prepared(players[s], true, ejectedMeanwhile)
  {
    SelectedSpec(players, ForIncant(players[s]));
  }

  /** The initiator stays on its tile at its level while the ritual is prepared. */
  lemma PreparedInitiator(players: seq<ServerPlayer>, prepared: seq<ServerPlayer>, s: nat, ejectedMeanwhile: bool)
    requires s < |players| && PreparedExactly(players, prepared, s, ejectedMeanwhile)
    ensures SamePlace(players[s], prepared[s])
  {
    PreparedKept(players, prepared, s, ejectedMeanwhile);
  }

  /** One index: _elevatePlayer's search once the ritual is prepared takes it iff the Raising phase addresses it. */
  lemma RaisingMember(players: seq<ServerPlayer>, prepared: seq<ServerPlayer>, s: nat, ejectedMeanwhile: bool, i: int)
    requires s < |players| && PreparedExactly(players, prepared, s, ejectedMeanwhile)
    ensures i in Selected(prepared, Incanting(prepared[s]))
            <==> i in Picked(players, Gathered(players, s), Raising(s, ejectedMeanwhile))
  {
    PreparedKept(players, prepared, s, ejectedMeanwhile);
    SelectedSpec(prepared, Incanting(prepared[s]));
    PickedFromSelection(players, Raising(s, ejectedMeanwhile), ForIncant(players[s]));
    SelectedSpec(players, ForIncant(players[s]));
    if 0 <= i < |players| {
      var q := ForIncant(players[s]);
      if Matches(q, players[i]) {
        assert i in Gathered(players, s);
        assert prepared[i] == Prepared(players[i], i == s, ejectedMeanwhile);
      } else {
        assert i !in Gathered(players, s);
        assert prepared[i] == players[i];
      }
    }
  }

  /** _elevatePlayer's search once the ritual is prepared finds the players the Raising phase addresses. */
  lemma RaisingMembers(players: seq<ServerPlayer>, prepared: seq<ServerPlayer>, s: nat, ejectedMeanwhile: bool)
    requires s < |players| && PreparedExactly(players, prepared, s, ejectedMeanwhile)
    ensures forall i :: i in Selected(prepared, Incanting(prepared[s]))
                        <==> i in Picked(players, Gathered(players, s), Raising(s, ejectedMeanwhile))
  {
    forall i ensures i in Selected(prepared, Incanting(prepared[s]))
                     <==> i in Picked(players, Gathered(players, s), Raising(s, ejectedMeanwhile)) {
      RaisingMember(players, prepared, s, ejectedMeanwhile, i);
    }
  }

  /**
   * What _elevatePlayer finds once the ritual is prepared: the gathered
   * players that pray by then, which are the players the Raising phase
   * addresses; all of them pray.
   */
  lemma RaisingFacts(players: seq<ServerPlayer>, prepared: seq<ServerPlayer>, s: nat, ejectedMeanwhile: bool)
    requires s < |players| && PreparedExactly(players, prepared, s, ejectedMeanwhile)
    ensures Kept(players, prepared) && SamePlace(players[s], prepared[s])
    ensures var list := Selected(prepared, Incanting(prepared[s]));
      AllIn(players, list) && list == Picked(players, Gathered(players, s), Raising(s, ejectedMeanwhile))
      && Picked(prepared, list, Praying) == list
  {
    PreparedKept(players, prepared, s, ejectedMeanwhile);
    var list := Selected(prepared, Incanting(prepared[s]));
    SelectedSpec(prepared, Incanting(prepared[s]));
    PickedFromSelection(players, Raising(s, ejectedMeanwhile), ForIncant(players[s]));
    RaisingMembers(players, prepared, s, ejectedMeanwhile);
    AscendingUnique(list, Picked(players, Gathered(players, s), Raising(s, ejectedMeanwhile)));
    forall k | 0 <= k < |list| ensures Addressed(Praying, list[k], prepared[list[k]]) {
      assert list[k] in list;
    }
    PickedWhole(prepared, list, Praying);
  }

  /** cur is players once the whole of handleIncantation has run for initiator s, its first check passed. */
  ghost predicate RitualExactly(players: seq<ServerPlayer>, cur: seq<ServerPlayer>, s: nat, ejectedMeanwhile: bool)
    requires s < |players|
  {
    |cur| == |players| && forall o :: 0 <= o < |players| ==>
      cur[o] == if o in Gathered(players, s) then Ritual(players[o], o == s, ejectedMeanwhile) else players[o]
  }

  /** One player through preparing and raising: Ritual when gathered, unchanged otherwise. */
  lemma RitualPlayer(players: seq<ServerPlayer>, prepared: seq<ServerPlayer>, raised: seq<ServerPlayer>, s: nat,
                     ejectedMeanwhile: bool, o: nat)
    requires s < |players| && PreparedExactly(players, prepared, s, ejectedMeanwhile)
    requires RaisedExactly(prepared, raised, s) && o < |players|
    ensures raised[o] == if o in Gathered(players, s) then Ritual(players[o], o == s, ejectedMeanwhile) else players[o]
  {
    RaisingFacts(players, prepared, s, ejectedMeanwhile);
    PreparedKept(players, prepared, s, ejectedMeanwhile);
    var gathered := Gathered(players, s);
    PickedMembers(players, gathered, Raising(s, ejectedMeanwhile));
    var list := Selected(prepared, Incanting(prepared[s]));
    if o in gathered {
      var w := Prepared(players[o], o == s, ejectedMeanwhile);
      assert prepared[o] == w;
      assert o in list <==> w.praying;
    } else {
      assert prepared[o] == players[o] && o !in list;
    }
  }

  /** Preparing then raising makes each gathered player go through Ritual, and nobody else change. */
  lemma RitualPlayers(players: seq<ServerPlayer>, prepared: seq<ServerPlayer>, raised: seq<ServerPlayer>, s: nat,
                      ejectedMeanwhile: bool)
    requires s < |players| && PreparedExactly(players, prepared, s, ejectedMeanwhile)
    requires RaisedExactly(prepared, raised, s)
    ensures RitualExactly(players, raised, s, ejectedMeanwhile)
  {
    forall o | 0 <= o < |players|
      ensures raised[o] == if o in Gathered(players, s) then Ritual(players[o], o == s, ejectedMeanwhile) else players[o]
    {
      RitualPlayer(players, prepared, raised, s, ejectedMeanwhile, o);
    }
  }

  /** Everything handleIncantation sends for initiator s when its first check passes. */
  function RitualReplies(teams: seq<Team>, players: seq<ServerPlayer>, s: nat, ejectedMeanwhile: bool): seq<Sent>
    requires s < |players|
  {
    var p, raising := players[s], Picked(players, Gathered(players, s), Raising(s, ejectedMeanwhile));
    PreparationReplies(teams, players, s) + Announcement(GuiSockets(teams, players), p)
    + Tell(players, raising, LevelText(p.level + 1))
  }

  /** The messages of Prepare, Announce and Raise put together. */
  lemma RitualSent(teams: seq<Team>, players: seq<ServerPlayer>, prepared: seq<ServerPlayer>, s: nat, ejectedMeanwhile: bool,
                   next: nat, before: seq<Sent>, printed: seq<Sent>, after: seq<Sent>)
    requires s < |players| && PreparedExactly(players, prepared, s, ejectedMeanwhile) && next == players[s].level + 1
    requires printed == before + PreparationReplies(teams, players, s)
    requires after == printed + Announcement(GuiSockets(teams, prepared), players[s]) + Tell(prepared, Picked(prepared, Selected(prepared, Incanting(prepared[s])), Praying),
                                       LevelText(next))
    ensures after == before + RitualReplies(teams, players, s, ejectedMeanwhile)
  {
    RaisingFacts(players, prepared, s, ejectedMeanwhile);
    KeptGui(teams, players, prepared);
    var raising := Picked(players, Gathered(players, s), Raising(s, ejectedMeanwhile));
    TellKept(players, prepared, raising, LevelText(players[s].level + 1));
    var a, b := PreparationReplies(teams, players, s), Announcement(GuiSockets(teams, players), players[s]);
    var c := Tell(players, raising, LevelText(players[s].level + 1));
    Regroup(before, a, b);
    Regroup(before, a + b, c);
  }

  /**
   * handleIncantation once its first check passed: _setPrayer,
   * incantationPrinting, the announcement with the consumption, and
   * _elevatePlayer; the initiator ends free.
   */
  method Incant(h: CommandHandler, s: nat, ejectedMeanwhile: bool)
    requires s < |h.players| && OnGrid(h.tiles, h.width, h.height, h.players[s]) && h.players[s].level >= MinLevel
    requires CheckIncantationConditions(h.tiles, h.width, h.height, h.players, h.players[s])
    modifies h`players, h`sent, h`tiles
    ensures RitualExactly(old(h.players), h.players, s, ejectedMeanwhile)
    ensures h.tiles == WithTile(old(h.tiles), old(h.players)[s].x, old(h.players)[s].y,
                                Consumed(old(h.tiles)[old(h.players)[s].x][old(h.players)[s].y], old(h.players)[s].level))
    ensures h.sent == old(h.sent) + RitualReplies(h.teams, old(h.players), s, ejectedMeanwhile)
  {
    var p := h.players[s];
    Prepare(h, s, ejectedMeanwhile);
    ghost var prepared, printed := h.players, h.sent;
    PreparedInitiator(old(h.players), prepared, s, ejectedMeanwhile);
    ghost var next := p.level + 1;
    ghost var a := Announcement(GuiSockets(h.teams, prepared), p);
    ghost var t := Tell(prepared, Picked(prepared, Selected(prepared, Incanting(prepared[s])), Praying), LevelText(next));
    Conclude(h, s, p, next, a, t);
    RitualPlayers(old(h.players), prepared, h.players, s, ejectedMeanwhile);
    RitualSent(h.teams, old(h.players), prepared, s, ejectedMeanwhile, next, old(h.sent), printed, h.sent);
  }

  /**
   * The end of handleIncantation for initiator s, p as it started: Announce,
   * whose lines are a, then Raise, whose lines are t.
   */
  method Conclude(h: CommandHandler, s: nat, p: ServerPlayer, ghost next: nat, ghost a: seq<Sent>, ghost t: seq<Sent>)
    requires s < |h.players| && next == h.players[s].level + 1
    requires OnGrid(h.tiles, h.width, h.height, p) && CheckIncantationResources(h.tiles[p.x][p.y], p.level)
    requires a == Announcement(GuiSockets(h.teams, h.players), p)
    requires t == Tell(h.players, Picked(h.players, Selected(h.players, Incanting(h.players[s])), Praying), LevelText(next))
    modifies h`players, h`sent, h`tiles
    ensures RaisedExactly(old(h.players), h.players, s)
    ensures h.tiles == WithTile(old(h.tiles), p.x, p.y, Consumed(old(h.tiles)[p.x][p.y], p.level))
    ensures h.sent == old(h.sent) + a + t
  {
    Announce(h, p);
    Raise(h, s, next);
  }

  /**
   * handleIncantation for player s. When the conditions are not met, `pie
   * x y 0` goes to the graphical clients and "ko\n" to the player, and
   * nothing else changes. Otherwise the ritual runs (Incant); the wait
   * inside it is cut short when the player was interrupted or is ejected
   * meanwhile.
   */
  method HandleIncantation(h: CommandHandler, s: nat, ejectedMeanwhile: bool)
    requires s < |h.players| && OnGrid(h.tiles, h.width, h.height, h.players[s]) && h.players[s].level >= MinLevel
    modifies h`players, h`sent, h`tiles
    ensures if CheckIncantationConditions(old(h.tiles), h.width, h.height, old(h.players), old(h.players)[s]) then
        RitualExactly(old(h.players), h.players, s, ejectedMeanwhile)
        && h.tiles == WithTile(old(h.tiles), old(h.players)[s].x, old(h.players)[s].y,
                               Consumed(old(h.tiles)[old(h.players)[s].x][old(h.players)[s].y], old(h.players)[s].level))
        && h.sent == old(h.sent) + RitualReplies(h.teams, old(h.players), s, ejectedMeanwhile)
      else
        h.players == old(h.players) && h.tiles == old(h.tiles)
        && h.sent == old(h.sent) + Refusal(GuiSockets(h.teams, h.players), h.players[s])
  {
    if !CheckIncantationConditions(h.tiles, h.width, h.height, h.players, h.players[s]) {
      Refuse(h, s);
      return;
    }
    Incant(h, s, ejectedMeanwhile);
  }
}
