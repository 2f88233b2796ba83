/**
 * Inventory, Take and Set: the reply listing a player's seven counts, and
 * the moves of one unit between the player's tile and its inventory. A
 * successful move is announced to the graphical clients as "pgt" or "pdr",
 * followed, for each of them, by the player's "pin" and its tile's "bct".
 */
module ResourceCommand {
  import opened Wrappers
  import opened CppInt
  import opened Text
  import opened Resource
  import opened ResourceContainer
  import opened GameMap
  import opened ServerWorld
  import opened ClientCommand
  import opened GuiCommand

  /** Entry k of the inventory reply: the k-th name, a space and the player's count of that kind. */
  function InventoryEntry(inv: Stock, k: nat): string
    requires k < ResourceQuantity
  {
    Names[k] + " " + IntToString(Quantity(inv, FromIndex(k)))
  }

  function InventoryEntries(inv: Stock): (es: seq<string>)
    ensures |es| == ResourceQuantity
    ensures forall k :: 0 <= k < ResourceQuantity ==> es[k] == InventoryEntry(inv, k)
  {
    seq(ResourceQuantity, k requires 0 <= k < ResourceQuantity => InventoryEntry(inv, k))
  }

  /** handleInventory's reply: "[food n,linemate n,...,thystame n]\n". */
  function InventoryText(inv: Stock): string
  {
    "[" + Join(InventoryEntries(inv), ",") + "]\n"
  }

  /** No name in the table holds a comma or a space. */
  lemma NameIsWord(k: nat)
    requires k < ResourceQuantity
    ensures ',' !in Names[k] && ' ' !in Names[k]
  {
    if k == 0 { assert Names[k] == "food"; }
    else if k == 1 { assert Names[k] == "linemate"; }
    else if k == 2 { assert Names[k] == "deraumere"; }
    else if k == 3 { assert Names[k] == "sibur"; }
    else if k == 4 { assert Names[k] == "mendiane"; }
    else if k == 5 { assert Names[k] == "phiras"; }
    else { assert Names[k] == "thystame"; }
  }

  /** An entry names kind k and, after the name, a number reading back as the count. */
  lemma EntryReadable(inv: Stock, k: nat)
    requires k < ResourceQuantity
    ensures var e := InventoryEntry(inv, k);
      ',' !in e && |Names[k]| < |e| && e[..|Names[k]|] == Names[k] &&
      ReadInt(e[|Names[k]|..]) == Some((Quantity(inv, FromIndex(k)), ""))
  {
    var n := Quantity(inv, FromIndex(k));
    var e := InventoryEntry(inv, k);
    NameIsWord(k);
    IntToStringWithout(n, ',');
    assert e == Names[k] + (" " + IntToString(n));
    assert e[|Names[k]|..] == " " + NatToString(n) + "";
    ReadIntOfSpacedNat(n, "");
  }

  /**
   * The reply read back: it is bracketed and ends the line; split on commas,
   * the text between the brackets gives seven entries, the k-th naming kind k
   * and then its count in the inventory.
   */
  lemma InventoryReadable(inv: Stock)
    ensures var t := InventoryText(inv);
      |t| >= 3 && t[0] == '[' && t[|t| - 2..] == "]\n" &&
      var parts := Split(t[1..|t| - 2], ',');
      |parts| == ResourceQuantity &&
      forall k :: 0 <= k < ResourceQuantity ==>
        |Names[k]| < |parts[k]| && parts[k][..|Names[k]|] == Names[k] &&
        ReadInt(parts[k][|Names[k]|..]) == Some((Quantity(inv, FromIndex(k)), ""))
  {
    var es := InventoryEntries(inv);
    var body := Join(es, ",");
    var t := InventoryText(inv);
    assert t == "[" + body + "]\n";
    assert t[1..|t| - 2] == body;
    forall k | 0 <= k < ResourceQuantity
      ensures ',' !in es[k]
      ensures |Names[k]| < |es[k]| && es[k][..|Names[k]|] == Names[k]
      ensures ReadInt(es[k][|Names[k]|..]) == Some((Quantity(inv, FromIndex(k)), ""))
    {
      EntryReadable(inv, k);
    }
    SplitJoin(es, ',');
  }

  /** handleInventory's loop: each name's entry and a comma, the last comma dropped, then "]\n". */
  method WriteInventory(inv: Stock) returns (msg: string)
    ensures msg == InventoryText(inv)
  {
    ghost var es := InventoryEntries(inv);
    msg := "[";
    var k := 0;
    while k < |Names|
      invariant 0 <= k <= ResourceQuantity
      invariant msg == "[" + Terminated(es[..k], ",")
    {
      NameAtIndex(k);
      var r := GetResource(Names[k]).value;
      var entry := Names[k] + " " + IntToString(Quantity(inv, r));
      assert entry == es[k];
      ghost var t := Terminated(es[..k], ",");
      TerminatedPrefix(es, k, ",");
      Behind("[", t, entry, ",");
      msg := msg + entry + ",";
      k := k + 1;
    }
    assert es[..ResourceQuantity] == es;
    TerminatedJoin(es, ",");
    ghost var joined := Join(es, ",");
    assert msg == ("[" + joined) + ",";
    msg := msg[..|msg| - 1] + "]\n";
    assert msg == "[" + joined + "]\n";
  }

  /** handleInventory for player i: after the wait, the player leaves its action and reads its inventory. */
  method HandleInventory(h: CommandHandler, i: nat, ejectedMeanwhile: bool)
    requires i < |h.players|
    modifies h`players, h`sent
    ensures var p := Waited(old(h.players[i]), Inventory, ejectedMeanwhile);
      WaitCompletes(old(h.players[i]), Inventory, ejectedMeanwhile) ==>
        h.players == old(h.players)[i := p.(inAction := false)] &&
        h.sent == old(h.sent) + [Sent(p.socket, InventoryText(p.inventory))]
    ensures !WaitCompletes(old(h.players[i]), Inventory, ejectedMeanwhile) ==>
      h.players == old(h.players)[i := Waited(old(h.players[i]), Inventory, ejectedMeanwhile)] && h.sent == old(h.sent)
  {
    var completed := WaitCommand(h, i, Inventory, ejectedMeanwhile);
    if !completed {
      return;
    }
    var p := h.players[i];
    var msg := WriteInventory(p.inventory);
    h.players := h.players[i := p.(inAction := false)];
    SendTo(h, p, msg);
  }

  /** Whether Take succeeds: the name is known and the tile holds at least one. */
  predicate CanTake(arg: string, tile: Stock)
  {
    GetResource(arg).Some? && Quantity(tile, GetResource(arg).value) > 0
  }

  /** Whether Set succeeds: the name is known and the player holds at least one. */
  predicate CanDrop(arg: string, inv: Stock)
  {
    GetResource(arg).Some? && Quantity(inv, GetResource(arg).value) > 0
  }

  /** "pgt #id r\n" with the kind's index. */
  function PgtText(id: int, r: Resource): string
  {
    "pgt #" + IntToString(id) + " " + IntToString(CastResource(r)) + "\n"
  }

  /** "pdr #id r\n" with the kind's index. */
  function PdrText(id: int, r: Resource): string
  {
    "pdr #" + IntToString(id) + " " + IntToString(CastResource(r)) + "\n"
  }

  /** resourceSendGui's messages: each graphical client, in order, gets the pin reply and then the bct reply. */
  function PinAndBct(sockets: seq<int>, pin: string, bct: string): seq<Sent>
  {
    if sockets == [] then []
    else
      var n := |sockets| - 1;
      PinAndBct(sockets[..n], pin, bct) + [Sent(sockets[n], pin), Sent(sockets[n], bct)]
  }

  /** One more player looked at by resourceSendGui's loop. */
  lemma PinAndBctStep(teams: seq<Team>, players: seq<ServerPlayer>, j: nat, pin: string, bct: string)
    requires j < |players|
    ensures PinAndBct(GuiSockets(teams, players[..j + 1]), pin, bct)
         == PinAndBct(GuiSockets(teams, players[..j]), pin, bct)
            + if IsGui(teams, players[j]) then [Sent(players[j].socket, pin), Sent(players[j].socket, bct)] else []
  {
    var front := GuiSockets(teams, players[..j]);
    assert players[..j + 1][..j] == players[..j];
    if IsGui(teams, players[j]) {
      assert GuiSockets(teams, players[..j + 1]) == front + [players[j].socket];
      assert (front + [players[j].socket])[..|front|] == front;
    } else {
      assert GuiSockets(teams, players[..j + 1]) == front;
    }
  }

  /**
   * resourceSendGui about player p: handlePin with p's id and handleBct with
   * p's position, for every member of every GRAPHIC team.
   */
  method ResourceSendGui(h: CommandHandler, p: ServerPlayer)
    requires h.Valid()
    modifies h`sent
    ensures h.sent == old(h.sent) + PinAndBct(GuiSockets(h.teams, h.players),
      PinReply(h.players, StreamInt(IntToString(p.id))),
      BctReply(IntToString(p.x) + " " + IntToString(p.y), h.tiles, h.width, h.height))
  {
    PinAndBctToAll(h, IntToString(p.id), IntToString(p.x) + " " + IntToString(p.y));
  }

  /** resourceSendGui's loop, with the arguments it hands to handlePin and handleBct. */
  method PinAndBctToAll(h: CommandHandler, pinArg: string, bctArg: string)
    requires h.Valid()
    modifies h`sent
    ensures h.sent == old(h.sent) + PinAndBct(GuiSockets(h.teams, h.players),
      PinReply(h.players, StreamInt(pinArg)), BctReply(bctArg, h.tiles, h.width, h.height))
  {
    ghost var pin := PinReply(h.players, StreamInt(pinArg));
    ghost var bct := BctReply(bctArg, h.tiles, h.width, h.height);
    var j := 0;
    while j < |h.players|
      invariant j <= |h.players|
      invariant h.sent == old(h.sent) + PinAndBct(GuiSockets(h.teams, h.players[..j]), pin, bct)
    {
      PinAndBctStepTo(h, j, pinArg, bctArg, old(h.sent), pin, bct);
      j := j + 1;
    }
    assert h.players[..j] == h.players;
  }

  /** One pass of resourceSendGui's loop, over player j. */
  method PinAndBctStepTo(h: CommandHandler, j: nat, pinArg: string, bctArg: string, ghost start: seq<Sent>, ghost pin: string, ghost bct: string)
    requires h.Valid() && j < |h.players|
    requires pin == PinReply(h.players, StreamInt(pinArg)) && bct == BctReply(bctArg, h.tiles, h.width, h.height)
    requires h.sent == start + PinAndBct(GuiSockets(h.teams, h.players[..j]), pin, bct)
    modifies h`sent
    ensures h.sent == start + PinAndBct(GuiSockets(h.teams, h.players[..j + 1]), pin, bct)
  {
    var g := h.players[j];
    if g.team < |h.teams| && h.teams[g.team].name == GraphicTeam {
      PinAndBctTo(h, g, pinArg, bctArg);
    }
    PinAndBctStep(h.teams, h.players, j, pin, bct);
    Regroup(start, PinAndBct(GuiSockets(h.teams, h.players[..j]), pin, bct),
            if IsGui(h.teams, g) then [Sent(g.socket, pin), Sent(g.socket, bct)] else []);
  }

  /** The body of resourceSendGui's loop for one graphical client g: handlePin, then handleBct. */
  method PinAndBctTo(h: CommandHandler, g: ServerPlayer, pinArg: string, bctArg: string)
    requires h.Valid()
    modifies h`sent
    ensures h.sent == old(h.sent) + [Sent(g.socket, PinReply(h.players, StreamInt(pinArg))),
                                     Sent(g.socket, BctReply(bctArg, h.tiles, h.width, h.height))]
  {
    HandlePin(h, g, pinArg);
    HandleBct(h, g, bctArg);
  }

  /**
   * The end of a successful Take or Set by player q: "ok\n" to q, the
   * announcement to the graphical clients, then resourceSendGui.
   */
  method ReportMove(h: CommandHandler, q: ServerPlayer, announcement: string)
    requires h.Valid()
    modifies h`sent
    ensures h.sent == old(h.sent) + [Sent(q.socket, "ok\n")] + ToEach(GuiSockets(h.teams, h.players), announcement)
              + PinAndBct(GuiSockets(h.teams, h.players),
                          PinReply(h.players, StreamInt(IntToString(q.id))),
                          BctReply(IntToString(q.x) + " " + IntToString(q.y), h.tiles, h.width, h.height))
  {
    SendTo(h, q, "ok\n");
    MessageToGui(h, announcement);
    ResourceSendGui(h, q);
  }

  /** The player after a successful Take of r: one more r and no longer in action. */
  function Taken(p: ServerPlayer, r: Resource): (q: ServerPlayer)
    ensures Quantity(q.inventory, r) == Quantity(p.inventory, r) + 1
    ensures forall k :: k != r ==> Quantity(q.inventory, k) == Quantity(p.inventory, k)
    ensures q == p.(inventory := q.inventory, inAction := false)
  {
    p.(inventory := AddTo(p.inventory, r, 1), inAction := false)
  }

  /** The player after a successful Set of r: one r fewer and no longer in action. */
  function Dropped(p: ServerPlayer, r: Resource): (q: ServerPlayer)
    requires Quantity(p.inventory, r) > 0
    ensures Quantity(q.inventory, r) + 1 == Quantity(p.inventory, r)
    ensures forall k :: k != r ==> Quantity(q.inventory, k) == Quantity(p.inventory, k)
    ensures q == p.(inventory := q.inventory, inAction := false)
  {
    p.(inventory := RemoveFrom(p.inventory, r, 1), inAction := false)
  }

  /**
   * A move of one unit of r between tile (x, y) and an inventory: for every
   * kind, the map's total plus the inventory's count is what it was, and
   * every other tile is untouched.
   */
  lemma MoveConserves(g: Grid, x: nat, y: nat, t: Stock, inv: Stock, inv': Stock)
    requires x < |g| && y < |g[x]|
    requires forall k :: Quantity(t, k) + Quantity(inv', k) == Quantity(g[x][y], k) + Quantity(inv, k)
    ensures forall k :: GridTotal(WithTile(g, x, y, t), k) + Quantity(inv', k) == GridTotal(g, k) + Quantity(inv, k)
    ensures forall i, j :: 0 <= i < |g| && 0 <= j < |g[i]| && (i != x || j != y) ==> WithTile(g, x, y, t)[i][j] == g[i][j]
  {
    forall k
      ensures GridTotal(WithTile(g, x, y, t), k) + Quantity(inv', k) == GridTotal(g, k) + Quantity(inv, k)
    {
      GridTotalUpdate(g, x, y, t, k);
    }
  }

  /** Take conserves every kind: what leaves the tile is what the player gains. */
  lemma TakeConserves(g: Grid, x: nat, y: nat, p: ServerPlayer, r: Resource)
    requires x < |g| && y < |g[x]| && Quantity(g[x][y], r) > 0
    ensures forall k :: GridTotal(WithTile(g, x, y, RemoveFrom(g[x][y], r, 1)), k) + Quantity(Taken(p, r).inventory, k)
                        == GridTotal(g, k) + Quantity(p.inventory, k)
  {
    MoveConserves(g, x, y, RemoveFrom(g[x][y], r, 1), p.inventory, Taken(p, r).inventory);
  }

  /** Set conserves every kind: what the player loses is what the tile gains. */
  lemma DropConserves(g: Grid, x: nat, y: nat, p: ServerPlayer, r: Resource)
    requires x < |g| && y < |g[x]| && Quantity(p.inventory, r) > 0
    ensures forall k :: GridTotal(WithTile(g, x, y, AddTo(g[x][y], r, 1)), k) + Quantity(Dropped(p, r).inventory, k)
                        == GridTotal(g, k) + Quantity(p.inventory, k)
  {
    MoveConserves(g, x, y, AddTo(g[x][y], r, 1), p.inventory, Dropped(p, r).inventory);
  }

  /** A Take followed by a Set of the same kind restores both the tile and the inventory. */
  lemma TakeThenDrop(g: Grid, x: nat, y: nat, p: ServerPlayer, r: Resource)
    requires x < |g| && y < |g[x]| && Quantity(g[x][y], r) > 0
    ensures var g' := WithTile(g, x, y, RemoveFrom(g[x][y], r, 1));
      WithTile(g', x, y, AddTo(g'[x][y], r, 1)) == g &&
      Dropped(Taken(p, r), r).inventory == p.inventory
  {
    var t := RemoveFrom(g[x][y], r, 1);
    AddRemoveInverse(g[x][y], r, 1);
    AddRemoveInverse(p.inventory, r, 1);
    WithTileTwice(g, x, y, t, AddTo(t, r, 1));
    WithTileSame(g, x, y);
  }

  /**
   * After a move by the player at index i, whose id no earlier player has,
   * the pin reply describes that player as it now is and the bct reply its
   * tile as it now is.
   */
  lemma ReportsNewState(players: seq<ServerPlayer>, i: nat, tiles: Grid, w: nat, h: nat)
    requires i < |players| && forall j :: 0 <= j < i ==> players[j].id != players[i].id
    requires InInt(players[i].id) && w <= IntMax && h <= IntMax
    requires IsGrid(tiles, w, h) && 0 <= players[i].x < w && 0 <= players[i].y < h
    ensures var p := players[i];
      PinReply(players, StreamInt(IntToString(p.id))) == PinText(p) &&
      BctReply(IntToString(p.x) + " " + IntToString(p.y), tiles, w, h) == BctText(p.x, p.y, tiles[p.x][p.y])
  {
    ReplyAboutPlayer(players, i, players[i]);
    TileReplyOnGrid(tiles, w, h, players[i].x, players[i].y);
  }

  /**
   * What handleTake leaves once the wait has run its course, from players P,
   * tiles T and messages S to P2, T2 and S2: "ko\n" and nothing else for an
   * unknown or absent kind; otherwise one unit moves from the tile to player
   * i, who gets "ok\n", the graphical clients get "pgt", and then
   * resourceSendGui reports the player and its tile as they now are.
   */
  ghost predicate TakeOutcome(teams: seq<Team>, w: nat, hh: nat, i: nat, arg: string,
                              P: seq<ServerPlayer>, T: Grid, S: seq<Sent>, P2: seq<ServerPlayer>, T2: Grid, S2: seq<Sent>)
    requires i < |P| && IsGrid(T, w, hh) && IsGrid(T2, w, hh) && 0 <= P[i].x < w && 0 <= P[i].y < hh
  {
    var p := P[i];
    if CanTake(arg, T[p.x][p.y]) then
      var r := GetResource(arg).value;
      P2 == P[i := Taken(p, r)] &&
      T2 == WithTile(T, p.x, p.y, RemoveFrom(T[p.x][p.y], r, 1)) &&
      S2 == S + [Sent(p.socket, "ok\n")] + ToEach(GuiSockets(teams, P), PgtText(p.id, r))
              + PinAndBct(GuiSockets(teams, P), PinReply(P2, StreamInt(IntToString(p.id))),
                          BctReply(IntToString(p.x) + " " + IntToString(p.y), T2, w, hh))
    else
      P2 == P && T2 == T && S2 == S + [Sent(p.socket, "ko\n")]
  }

  /** handleTake for player i, standing on its tile of the map. */
  method HandleTake(h: CommandHandler, i: nat, arg: string, ejectedMeanwhile: bool)
    requires h.Valid() && i < |h.players|
    requires 0 <= h.players[i].x < h.width && 0 <= h.players[i].y < h.height
    modifies h`players, h`tiles, h`sent
    ensures h.Valid()
    ensures !WaitCompletes(old(h.players[i]), Take, ejectedMeanwhile) ==>
      h.players == old(h.players)[i := Waited(old(h.players[i]), Take, ejectedMeanwhile)] &&
      h.tiles == old(h.tiles) && h.sent == old(h.sent)
    ensures WaitCompletes(old(h.players[i]), Take, ejectedMeanwhile) ==>
      TakeOutcome(h.teams, h.width, h.height, i, arg, old(h.players)[i := Waited(old(h.players[i]), Take, ejectedMeanwhile)],
                  old(h.tiles), old(h.sent), h.players, h.tiles, h.sent)
  {
    var completed := WaitCommand(h, i, Take, ejectedMeanwhile);
    if !completed {
      return;
    }
    TakeAfterWait(h, i, arg);
  }

  /** handleTake once the wait has run its course: "ko\n" for an unknown or absent kind, else TakeOne. */
  method TakeAfterWait(h: CommandHandler, i: nat, arg: string)
    requires h.Valid() && i < |h.players|
    requires 0 <= h.players[i].x < h.width && 0 <= h.players[i].y < h.height
    modifies h`players, h`tiles, h`sent
    ensures h.Valid()
    ensures TakeOutcome(h.teams, h.width, h.height, i, arg, old(h.players), old(h.tiles), old(h.sent), h.players, h.tiles, h.sent)
  {
    var p := h.players[i];
    var found := GetResource(arg);
    if found.None? {
      SendTo(h, p, "ko\n");
      return;
    }
    var r := found.value;
    if Quantity(h.tiles[p.x][p.y], r) == 0 {
      SendTo(h, p, "ko\n");
      return;
    }
    TakeOne(h, i, r);
  }

  /** The success path of handleTake: one r from the tile to player i, then the reports. */
  method TakeOne(h: CommandHandler, i: nat, r: Resource)
    requires h.Valid() && i < |h.players|
    requires 0 <= h.players[i].x < h.width && 0 <= h.players[i].y < h.height
    requires Quantity(h.tiles[h.players[i].x][h.players[i].y], r) > 0
    modifies h`players, h`tiles, h`sent
    ensures h.Valid()
    ensures var p := old(h.players[i]);
      h.players == old(h.players)[i := Taken(p, r)] &&
      h.tiles == WithTile(old(h.tiles), p.x, p.y, RemoveFrom(old(h.tiles)[p.x][p.y], r, 1)) &&
      h.sent == old(h.sent) + [Sent(p.socket, "ok\n")] + ToEach(GuiSockets(h.teams, old(h.players)), PgtText(p.id, r))
                + PinAndBct(GuiSockets(h.teams, old(h.players)),
                            PinReply(h.players, StreamInt(IntToString(p.id))),
                            BctReply(IntToString(p.x) + " " + IntToString(p.y), h.tiles, h.width, h.height))
  {
    var p := h.players[i];
    var q := Taken(p, r);
    h.players := h.players[i := q];
    h.tiles := WithTile(h.tiles, p.x, p.y, RemoveFrom(h.tiles[p.x][p.y], r, 1));
    GuiSocketsUpdate(h.teams, old(h.players), i, q);
    ReportMove(h, q, PgtText(q.id, r));
  }

  /**
   * What handleDrop leaves once the wait has run its course: "ko\n" and
   * nothing else for an unknown or unheld kind; otherwise one unit moves from
   * player i to the tile, with "ok\n", "pdr" and resourceSendGui's reports.
   */
  ghost predicate DropOutcome(teams: seq<Team>, w: nat, hh: nat, i: nat, arg: string,
                              P: seq<ServerPlayer>, T: Grid, S: seq<Sent>, P2: seq<ServerPlayer>, T2: Grid, S2: seq<Sent>)
    requires i < |P| && IsGrid(T, w, hh) && IsGrid(T2, w, hh) && 0 <= P[i].x < w && 0 <= P[i].y < hh
  {
    var p := P[i];
    if CanDrop(arg, p.inventory) then
      var r := GetResource(arg).value;
      P2 == P[i := Dropped(p, r)] &&
      T2 == WithTile(T, p.x, p.y, AddTo(T[p.x][p.y], r, 1)) &&
      S2 == S + [Sent(p.socket, "ok\n")] + ToEach(GuiSockets(teams, P), PdrText(p.id, r))
              + PinAndBct(GuiSockets(teams, P), PinReply(P2, StreamInt(IntToString(p.id))),
                          BctReply(IntToString(p.x) + " " + IntToString(p.y), T2, w, hh))
    else
      P2 == P && T2 == T && S2 == S + [Sent(p.socket, "ko\n")]
  }

  /** handleDrop for player i, standing on its tile of the map. */
  method HandleDrop(h: CommandHandler, i: nat, arg: string, ejectedMeanwhile: bool)
    requires h.Valid() && i < |h.players|
    requires 0 <= h.players[i].x < h.width && 0 <= h.players[i].y < h.height
    modifies h`players, h`tiles, h`sent
    ensures h.Valid()
    ensures !WaitCompletes(old(h.players[i]), Set, ejectedMeanwhile) ==>
      h.players == old(h.players)[i := Waited(old(h.players[i]), Set, ejectedMeanwhile)] &&
      h.tiles == old(h.tiles) && h.sent == old(h.sent)
    ensures WaitCompletes(old(h.players[i]), Set, ejectedMeanwhile) ==>
      DropOutcome(h.teams, h.width, h.height, i, arg, old(h.players)[i := Waited(old(h.players[i]), Set, ejectedMeanwhile)],
                  old(h.tiles), old(h.sent), h.players, h.tiles, h.sent)
  {
    var completed := WaitCommand(h, i, Set, ejectedMeanwhile);
    if !completed {
      return;
    }
    DropAfterWait(h, i, arg);
  }

  /** handleDrop once the wait has run its course: "ko\n" for an unknown or unheld kind, else DropOne. */
  method DropAfterWait(h: CommandHandler, i: nat, arg: string)
    requires h.Valid() && i < |h.players|
    requires 0 <= h.players[i].x < h.width && 0 <= h.players[i].y < h.height
    modifies h`players, h`tiles, h`sent
    ensures h.Valid()
    ensures DropOutcome(h.teams, h.width, h.height, i, arg, old(h.players), old(h.tiles), old(h.sent), h.players, h.tiles, h.sent)
  {
    var p := h.players[i];
    var found := GetResource(arg);
    if found.None? {
      SendTo(h, p, "ko\n");
      return;
    }
    var r := found.value;
    if Quantity(p.inventory, r) == 0 {
      SendTo(h, p, "ko\n");
      return;
    }
    DropOne(h, i, r);
  }

  /** The success path of handleDrop: one r from player i to the tile, then the reports. */
  method DropOne(h: CommandHandler, i: nat, r: Resource)
    requires h.Valid() && i < |h.players|
    requires 0 <= h.players[i].x < h.width && 0 <= h.players[i].y < h.height
    requires Quantity(h.players[i].inventory, r) > 0
    modifies h`players, h`tiles, h`sent
    ensures h.Valid()
    ensures var p := old(h.players[i]);
      h.players == old(h.players)[i := Dropped(p, r)] &&
      h.tiles == WithTile(old(h.tiles), p.x, p.y, AddTo(old(h.tiles)[p.x][p.y], r, 1)) &&
      h.sent == old(h.sent) + [Sent(p.socket, "ok\n")] + ToEach(GuiSockets(h.teams, old(h.players)), PdrText(p.id, r))
                + PinAndBct(GuiSockets(h.teams, old(h.players)),
                            PinReply(h.players, StreamInt(IntToString(p.id))),
                            BctReply(IntToString(p.x) + " " + IntToString(p.y), h.tiles, h.width, h.height))
  {
    var p := h.players[i];
    h.tiles := WithTile(h.tiles, p.x, p.y, AddTo(h.tiles[p.x][p.y], r, 1));
    var q := Dropped(p, r);
    h.players := h.players[i := q];
    GuiSocketsUpdate(h.teams, old(h.players), i, q);
    ReportMove(h, q, PdrText(q.id, r));
  }
}
