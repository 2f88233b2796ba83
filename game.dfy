/**
 * The game's bookkeeping of teams: the win check, a client joining a team
 * (hatching from an egg for a player team), leaving it, and the food a
 * player loses each time its life timer runs out.
 */
module ServerGame {
  import opened Wrappers
  import opened CppInt
  import opened Text
  import opened Orientation
  import opened Resource
  import opened ResourceContainer
  import opened ServerWorld
  import opened ClientCommand
  import opened GuiCommand
  import opened ServerArgs

  /** A team wins with six members at level 8 or more. */
  const PlayersToWin: nat := 6
  const WinLevel: nat := 8

  /** The id of every graphical client's player, and its tile. */
  const NoId: int := -1

  /** The level every new player starts at. */
  const StartLevel: nat := 1

  /** Members of team t at the winning level or above. */
  function LevelCount(players: seq<ServerPlayer>, t: nat): (n: nat)
    ensures n <= MemberCount(players, t)
  {
    if players == [] then 0
    else
      var last := players[|players| - 1];
      LevelCount(players[..|players| - 1], t) + if last.team == t && last.level >= WinLevel then 1 else 0
  }

  /** Team t is a player team (not named GRAPHIC) with enough members at the winning level. */
  predicate Wins(teams: seq<Team>, players: seq<ServerPlayer>, t: nat)
  {
    t < |teams| && teams[t].name != GraphicTeam && LevelCount(players, t) >= PlayersToWin
  }

  /** The first winning team from t on, in team order. */
  function WinnerFrom(teams: seq<Team>, players: seq<ServerPlayer>, t: nat): (r: Option<nat>)
    ensures r.Some? ==> t <= r.value && Wins(teams, players, r.value)
                        && forall u :: t <= u < r.value ==> !Wins(teams, players, u)
    ensures r.None? ==> forall u :: t <= u < |teams| ==> !Wins(teams, players, u)
    decreases |teams| - t
  {
    if t >= |teams| then None
    else if Wins(teams, players, t) then Some(t)
    else WinnerFrom(teams, players, t + 1)
  }

  /** "seg name\n": the team has won. */
  function SegText(name: string): string
  {
    "seg " + name + "\n"
  }

  /**
   * checkWin: the first team, in team order, that wins is announced to the
   * graphical clients, and the game is won; otherwise nothing is sent.
   */
  method CheckWin(h: CommandHandler) returns (won: bool)
    modifies h`sent
    ensures var w := WinnerFrom(h.teams, h.players, 0);
      won == w.Some?
      && h.sent == old(h.sent) + if w.Some? then ToEach(GuiSockets(h.teams, h.players), SegText(h.teams[w.value].name)) else []
  {
    var t := 0;
    while t < |h.teams|
      invariant t <= |h.teams|
      invariant WinnerFrom(h.teams, h.players, 0) == WinnerFrom(h.teams, h.players, t)
      invariant h.sent == old(h.sent)
    {
      if h.teams[t].name != GraphicTeam {
        var n := CountAtWinLevel(h, t);
        if n >= PlayersToWin {
          MessageToGui(h, SegText(h.teams[t].name));
          return true;
        }
      }
      t := t + 1;
    }
    return false;
  }

  /** checkWin's loop over one team's members. */
  method CountAtWinLevel(h: CommandHandler, t: nat) returns (n: nat)
    ensures n == LevelCount(h.players, t)
  {
    n := 0;
    var k := 0;
    while k < |h.players|
      invariant k <= |h.players|
      invariant n == LevelCount(h.players[..k], t)
    {
      assert h.players[..k + 1][..k] == h.players[..k];
      if h.players[k].team == t && h.players[k].level >= WinLevel {
        n := n + 1;
      }
      k := k + 1;
    }
    assert h.players[..k] == h.players;
  }

  /** _checkAlreadyInTeam: whether any team already holds a player on the socket. */
  method AlreadyInTeam(h: CommandHandler, socket: int) returns (found: bool)
    ensures found <==> exists k :: 0 <= k < |h.players| && h.players[k].socket == socket
  {
    var k := 0;
    while k < |h.players|
      invariant k <= |h.players|
      invariant forall m :: 0 <= m < k ==> h.players[m].socket != socket
    {
      if h.players[k].socket == socket {
        return true;
      }
      k := k + 1;
    }
    return false;
  }

  /** The first team with the name, as std::find_if finds it. */
  function FindTeam(teams: seq<Team>, name: string): (r: Option<nat>)
    ensures r.Some? ==> r.value < |teams| && teams[r.value].name == name
                        && forall u :: 0 <= u < r.value ==> teams[u].name != name
    ensures r.None? ==> forall u :: 0 <= u < |teams| ==> teams[u].name != name
  {
    if teams == [] then None
    else if teams[0].name == name then Some(0)
    else
      match FindTeam(teams[1..], name)
      case None => None
      case Some(u) => Some(u + 1)
  }

  /** Where team t's member list ends: the players before this index belong to team t or an earlier one. */
  function GroupEnd(players: seq<ServerPlayer>, t: nat): (k: nat)
    ensures k <= |players|
    ensures forall i :: 0 <= i < k ==> players[i].team <= t
    ensures k < |players| ==> players[k].team > t
  {
    if players == [] || players[0].team > t then 0
    else 1 + GroupEnd(players[1..], t)
  }

  /** addPlayer: p goes at the end of its team's member list. */
  function Joined(players: seq<ServerPlayer>, p: ServerPlayer): seq<ServerPlayer>
  {
    var k := GroupEnd(players, p.team);
    players[..k] + [p] + players[k..]
  }

  /** The player a client becomes: level 1 on the popped egg's tile for a player team, id -1 on (-1, -1) for the GRAPHIC team. */
  function NewMember(teams: seq<Team>, t: nat, socket: int, o: Orientation, id: int, egg: EggRecord): (p: ServerPlayer)
    requires t < |teams|
    ensures p.team == t && p.socket == socket && p.level == StartLevel && p.teamName == teams[t].name
    ensures teams[t].kind.PlayerTeam? ==> p.id == id && p.x == egg.x && p.y == egg.y
    ensures teams[t].kind.GuiTeam? ==> p.id == NoId && p.x == NoId && p.y == NoId
  {
    if teams[t].kind.PlayerTeam? then NewServerPlayer(socket, id, egg.x, egg.y, o, StartLevel, teams[t].name, t)
    else NewServerPlayer(socket, NoId, NoId, NoId, o, StartLevel, teams[t].name, t)
  }

  /** "ebo #id\n": a player hatched from the egg. */
  function EboText(egg: int): string
  {
    "ebo #" + IntToString(egg) + "\n"
  }

  /** "edi #id\n": the egg is gone. */
  function EdiText(egg: int): string
  {
    "edi #" + IntToString(egg) + "\n"
  }

  /** "pdi #id\n": the player died. */
  function PdiText(id: int): string
  {
    "pdi #" + IntToString(id) + "\n"
  }

  /** Whether handleTeamJoin lets the socket into team t: room in a player team, and no team holding the socket yet. */
  predicate Admits(teams: seq<Team>, players: seq<ServerPlayer>, t: nat, socket: int)
    requires t < |teams|
  {
    (teams[t].kind.PlayerTeam? ==> MemberCount(players, t) < teams[t].kind.clientNb)
    && forall k :: 0 <= k < |players| ==> players[k].socket != socket
  }

  /** No two players share a socket. */
  predicate SocketsUnique(players: seq<ServerPlayer>)
  {
    forall i, j :: 0 <= i < j < |players| ==> players[i].socket != players[j].socket
  }

  /** Every member of a player team holds an id below n. */
  predicate PlayerIdsBelow(teams: seq<Team>, players: seq<ServerPlayer>, n: int)
  {
    forall k :: 0 <= k < |players| && InPlayerTeam(teams, players[k]) ==> players[k].id < n
  }

  class Game {
    /** The id the next player of a player team gets. */
    var idPlayerTot: int
    /** _playerList: the sockets of the players, in the order they joined. */
    var playerList: seq<int>

    constructor()
      ensures idPlayerTot == 1 && playerList == []
    {
      idPlayerTot := 1;
      playerList := [];
    }

    /**
     * _addPlayerToTeam for team t. A player team's joiner hatches from the
     * egg popEgg returns (index egg): the graphical clients hear "ebo" and
     * "edi" for it, the player takes the next id, and unless the team is
     * named GRAPHIC the graphical clients hear "pnw". A GRAPHIC joiner gets
     * id -1 on (-1, -1) and nothing is sent.
     */
    method AddPlayerToTeam(h: CommandHandler, t: nat, socket: int, o: Orientation, egg: nat)
      requires t < |h.teams|
      requires h.teams[t].kind.PlayerTeam? ==> egg < |h.eggs|
      modifies this, h`players, h`sent, h`eggs
      ensures h.teams[t].kind.PlayerTeam? ==>
        var e := old(h.eggs[egg]);
        var p := NewMember(h.teams, t, socket, o, old(idPlayerTot), e);
        h.eggs == old(h.eggs[..egg] + h.eggs[egg + 1..])
        && h.players == Joined(old(h.players), p)
        && idPlayerTot == old(idPlayerTot) + 1
        && h.sent == old(h.sent) + ToEach(GuiSockets(h.teams, old(h.players)), EboText(e.id))
                                 + ToEach(GuiSockets(h.teams, old(h.players)), EdiText(e.id))
                                 + (if h.teams[t].name == GraphicTeam then []
                                    else ToEach(GuiSockets(h.teams, h.players), PnwTextAsWritten(p)))
      ensures h.teams[t].kind.GuiTeam? ==>
        h.eggs == old(h.eggs) && h.sent == old(h.sent) && idPlayerTot == old(idPlayerTot)
        && h.players == Joined(old(h.players), NewMember(h.teams, t, socket, o, old(idPlayerTot), EggRecord(0, 0, 0, 0)))
      ensures playerList == old(playerList) + [socket]
    {
      if h.teams[t].kind.PlayerTeam? {
        var e := h.eggs[egg];
        h.eggs := h.eggs[..egg] + h.eggs[egg + 1..];
        MessageToGui(h, EboText(e.id));
        MessageToGui(h, EdiText(e.id));
        var p := NewMember(h.teams, t, socket, o, idPlayerTot, e);
        idPlayerTot := idPlayerTot + 1;
        h.players := Joined(h.players, p);
        playerList := playerList + [socket];
        if h.teams[t].name == GraphicTeam {
          return;
        }
        MessageToGui(h, PnwTextAsWritten(p));
        return;
      }
      var p := NewMember(h.teams, t, socket, o, idPlayerTot, EggRecord(0, 0, 0, 0));
      h.players := Joined(h.players, p);
      playerList := playerList + [socket];
    }

    /**
     * handleTeamJoin for a team the caller found by name: a full player
     * team or a socket some team already holds is refused; otherwise the
     * client joins.
     */
    method HandleTeamJoin(h: CommandHandler, socket: int, name: string, o: Orientation, egg: nat) returns (joined: bool)
      requires FindTeam(h.teams, name).Some?
      requires h.teams[FindTeam(h.teams, name).value].kind.PlayerTeam? ==> egg < |h.eggs|
      modifies this, h`players, h`sent, h`eggs
      ensures var t := FindTeam(h.teams, name).value;
        joined == Admits(h.teams, old(h.players), t, socket)
        && (joined ==>
              h.players == Joined(old(h.players), NewMember(h.teams, t, socket, o, old(idPlayerTot),
                             if h.teams[t].kind.PlayerTeam? then old(h.eggs[egg]) else EggRecord(0, 0, 0, 0)))
              && playerList == old(playerList) + [socket])
        && (joined && h.teams[t].kind.PlayerTeam? ==>
              h.eggs == old(h.eggs[..egg] + h.eggs[egg + 1..]) && idPlayerTot == old(idPlayerTot) + 1)
      ensures !joined ==> h.players == old(h.players) && h.sent == old(h.sent) && h.eggs == old(h.eggs)
                          && idPlayerTot == old(idPlayerTot) && playerList == old(playerList)
    {
      var t := FindTeam(h.teams, name).value;
      if h.teams[t].kind.PlayerTeam? && MemberCount(h.players, t) >= h.teams[t].kind.clientNb {
        return false;
      }
      var taken := AlreadyInTeam(h, socket);
      if taken {
        return false;
      }
      AddPlayerToTeam(h, t, socket, o, egg);
      return true;
    }

    /**
     * removeFromTeam: the first player, team after team, on the socket
     * leaves its team; nobody else moves.
     */
    method RemoveFromTeam(h: CommandHandler, socket: int)
      modifies h`players
      ensures match FirstWithSocket(old(h.players), socket)
        case Some(k) => h.players == old(h.players[..k] + h.players[k + 1..])
        case None => h.players == old(h.players)
    {
      var k := 0;
      while k < |h.players|
        invariant k <= |h.players|
        invariant forall m :: 0 <= m < k ==> h.players[m].socket != socket
      {
        if h.players[k].socket == socket {
          FirstFound(h.players, socket, k);
          h.players := h.players[..k] + h.players[k + 1..];
          return;
        }
        k := k + 1;
      }
    }
  }

  /** The lookup stops at the first player on the socket. */
  lemma FirstFound(players: seq<ServerPlayer>, socket: int, k: nat)
    requires k < |players| && players[k].socket == socket
    requires forall m :: 0 <= m < k ==> players[m].socket != socket
    ensures FirstWithSocket(players, socket) == Some(k)
  {
  }

  /**
   * foodManager for player k of a team whose life timer has run out. A
   * player of a player team still connected loses one food while it has
   * any, and every graphical client is sent handlePin's reply about it;
   * with none left it is sent "dead\n", leaves its team, and the graphical
   * clients hear "pdi".
   */
  method FoodStep(h: CommandHandler, k: nat)
    requires k < |h.players|
    modifies h`players, h`sent
    ensures var p := old(h.players[k]);
      if !InPlayerTeam(h.teams, p) || !p.connected then
        h.players == old(h.players) && h.sent == old(h.sent)
      else if Quantity(p.inventory, Food) > 0 then
        h.players == old(h.players)[k := p.(inventory := RemoveFrom(p.inventory, Food, 1))]
        && h.sent == old(h.sent) + ToEach(GuiSockets(h.teams, old(h.players)), PinReply(h.players, StreamInt(IntToString(p.id))))
      else
        h.players == old(h.players[..k] + h.players[k + 1..])
        && h.sent == old(h.sent) + [Sent(p.socket, "dead\n")] + ToEach(GuiSockets(h.teams, h.players), PdiText(p.id))
  {
    var p := h.players[k];
    if !InPlayerTeam(h.teams, p) || !p.connected {
      return;
    }
    if Quantity(p.inventory, Food) > 0 {
      ghost var before := h.players;
      h.players := h.players[k := p.(inventory := RemoveFrom(p.inventory, Food, 1))];
      GuiSocketsUpdate(h.teams, before, k, h.players[k]);
      MessageToGui(h, PinReply(h.players, StreamInt(IntToString(p.id))));
      return;
    }
    SendTo(h, p, "dead\n");
    h.players := h.players[..k] + h.players[k + 1..];
    MessageToGui(h, PdiText(p.id));
  }

  // ---- properties ----------------------------------------------------------------------

  /** Player teams are never named GRAPHIC. */
  predicate PlayerTeamsNamed(teams: seq<Team>)
  {
    forall t :: 0 <= t < |teams| && teams[t].kind.PlayerTeam? ==> teams[t].name != GraphicTeam
  }

  /**
   * The teams the command line yields, once the game gives each player team
   * its capacity, never include a player team named GRAPHIC.
   */
  lemma ParsedTeamsNamed(argv: seq<string>, c: Config, indeterminate: int, clientNb: int)
    requires GuiByName(c.teams)
    ensures PlayerTeamsNamed(GameTeams(Parse(argv, 1, c, indeterminate).0.teams, clientNb))
  {
    ParseKeepsGuiByName(argv, 1, c, indeterminate);
  }

  /** Whatever checkWin finds, a team with fewer than six members cannot win. */
  lemma SmallTeamCannotWin(teams: seq<Team>, players: seq<ServerPlayer>, t: nat)
    requires MemberCount(players, t) < PlayersToWin
    ensures !Wins(teams, players, t)
  {
  }

  /** Member counts add up over a split of the list. */
  lemma {:induction false} MemberCountAppend(a: seq<ServerPlayer>, b: seq<ServerPlayer>, t: nat)
    ensures MemberCount(a + b, t) == MemberCount(a, t) + MemberCount(b, t)
    decreases |b|
  {
    if b != [] {
      var n := |b| - 1;
      assert (a + b)[..|a + b| - 1] == a + b[..n];
      assert (a + b)[|a + b| - 1] == b[n];
      MemberCountAppend(a, b[..n], t);
    } else {
      assert a + b == a;
    }
  }

  /** A one-player list counts for its player's team only. */
  lemma MemberCountOne(p: ServerPlayer, u: nat)
    ensures MemberCount([p], u) == if u == p.team then 1 else 0
  {
    assert [p][..0] == [];
  }

  /**
   * A joiner lands in its own team's member list: that team has one member
   * more and every other team the same members.
   */
  lemma JoinedCounts(players: seq<ServerPlayer>, p: ServerPlayer, u: nat)
    ensures MemberCount(Joined(players, p), u) == MemberCount(players, u) + if u == p.team then 1 else 0
  {
    var k := GroupEnd(players, p.team);
    var a, b := players[..k], players[k..];
    assert players == a + b;
    MemberCountAppend(a + [p], b, u);
    MemberCountAppend(a, [p], u);
    MemberCountAppend(a, b, u);
    MemberCountOne(p, u);
  }

  /** The member lists stay laid out team after team once a joiner is in. */
  lemma JoinedGrouped(players: seq<ServerPlayer>, p: ServerPlayer)
    requires Grouped(players)
    ensures Grouped(Joined(players, p))
  {
    var k := GroupEnd(players, p.team);
    var q := Joined(players, p);
    forall i, j | 0 <= i < j < |q|
      ensures q[i].team <= q[j].team
    {
      if j == k {
        assert q[i] == players[i];
      } else if i == k {
        assert q[j] == players[j - 1];
      } else if j < k {
        assert q[i] == players[i] && q[j] == players[j];
      } else if i < k {
        assert q[i] == players[i] && q[j] == players[j - 1];
      } else {
        assert q[i] == players[i - 1] && q[j] == players[j - 1];
      }
    }
  }

  /**
   * A join never overfills a player team: a team with room for one more
   * has at most its capacity once the client is in.
   */
  lemma JoinWithinCapacity(teams: seq<Team>, players: seq<ServerPlayer>, t: nat, socket: int, o: Orientation, id: int, egg: EggRecord)
    requires t < |teams| && teams[t].kind.PlayerTeam?
    requires Admits(teams, players, t, socket)
    ensures MemberCount(Joined(players, NewMember(teams, t, socket, o, id, egg)), t) <= teams[t].kind.clientNb
  {
    JoinedCounts(players, NewMember(teams, t, socket, o, id, egg), t);
  }

  /** A join keeps sockets unique: the socket it admits was held by nobody. */
  lemma JoinKeepsSocketsUnique(teams: seq<Team>, players: seq<ServerPlayer>, t: nat, socket: int, o: Orientation, id: int, egg: EggRecord)
    requires t < |teams| && SocketsUnique(players) && Admits(teams, players, t, socket)
    ensures SocketsUnique(Joined(players, NewMember(teams, t, socket, o, id, egg)))
  {
    var p := NewMember(teams, t, socket, o, id, egg);
    var k := GroupEnd(players, p.team);
    var q := Joined(players, p);
    forall i, j | 0 <= i < j < |q|
      ensures q[i].socket != q[j].socket
    {
      if j == k {
        assert q[i] == players[i];
      } else if i == k {
        assert q[j] == players[j - 1];
      } else if j < k {
        assert q[i] == players[i] && q[j] == players[j];
      } else if i < k {
        assert q[i] == players[i] && q[j] == players[j - 1];
      } else {
        assert q[i] == players[i - 1] && q[j] == players[j - 1];
      }
    }
  }

  /**
   * Ids stay sequential: a player-team joiner takes id n, which no member
   * of a player team holds, and afterwards every such member is below n + 1.
   */
  lemma JoinIdFresh(teams: seq<Team>, players: seq<ServerPlayer>, t: nat, socket: int, o: Orientation, n: int, egg: EggRecord)
    requires t < |teams| && teams[t].kind.PlayerTeam? && PlayerIdsBelow(teams, players, n)
    ensures forall k :: 0 <= k < |players| && InPlayerTeam(teams, players[k]) ==> players[k].id != n
    ensures PlayerIdsBelow(teams, Joined(players, NewMember(teams, t, socket, o, n, egg)), n + 1)
  {
    var p := NewMember(teams, t, socket, o, n, egg);
    var k := GroupEnd(players, p.team);
    var q := Joined(players, p);
    forall i | 0 <= i < |q| && InPlayerTeam(teams, q[i])
      ensures q[i].id < n + 1
    {
      if i < k {
        assert q[i] == players[i];
      } else if i > k {
        assert q[i] == players[i - 1];
      }
    }
  }

  /**
   * With sockets unique, removeFromTeam takes the socket's player out of
   * the game, its team loses exactly that member, and no other team changes.
   */
  lemma RemovedCounts(players: seq<ServerPlayer>, socket: int, u: nat)
    requires SocketsUnique(players) && FirstWithSocket(players, socket).Some?
    ensures var k := FirstWithSocket(players, socket).value;
      var q := players[..k] + players[k + 1..];
      (forall i :: 0 <= i < |q| ==> q[i].socket != socket)
      && MemberCount(q, u) + (if u == players[k].team then 1 else 0) == MemberCount(players, u)
  {
    var k := FirstWithSocket(players, socket).value;
    var q := players[..k] + players[k + 1..];
    forall i | 0 <= i < |q|
      ensures q[i].socket != socket
    {
      if i < k {
        assert q[i] == players[i];
      } else {
        assert q[i] == players[i + 1];
      }
    }
    assert players == players[..k] + [players[k]] + players[k + 1..];
    MemberCountAppend(players[..k] + [players[k]], players[k + 1..], u);
    MemberCountAppend(players[..k], [players[k]], u);
    MemberCountAppend(players[..k], players[k + 1..], u);
    assert MemberCount([players[k]], u) == if u == players[k].team then 1 else 0 by {
      assert [players[k]][..0] == [];
    }
  }

  /**
   * The reply about a fed player: once its food is down by one, handlePin
   * finds it by its id, the first holder of that id, and describes it as it
   * is now.
   */
  lemma FedPlayerReported(players: seq<ServerPlayer>, k: nat)
    requires k < |players| && InInt(players[k].id) && Quantity(players[k].inventory, Food) > 0
    requires forall j :: 0 <= j < k ==> players[j].id != players[k].id
    ensures var q := players[k := players[k].(inventory := RemoveFrom(players[k].inventory, Food, 1))];
      PinReply(q, StreamInt(IntToString(players[k].id))) == PinText(q[k])
      && Quantity(q[k].inventory, Food) + 1 == Quantity(players[k].inventory, Food)
  {
    var q := players[k := players[k].(inventory := RemoveFrom(players[k].inventory, Food, 1))];
    StreamIntOfIntToString(players[k].id);
    FoundFirst(q, k);
  }

  /** A starving player is no graphical client: its death leaves the graphical clients as they were. */
  lemma DeathKeepsGuiSockets(teams: seq<Team>, players: seq<ServerPlayer>, k: nat)
    requires k < |players| && InPlayerTeam(teams, players[k])
    requires PlayerTeamsNamed(teams)
    ensures GuiSockets(teams, players[..k] + players[k + 1..]) == GuiSockets(teams, players)
  {
    var a, p, b := players[..k], players[k], players[k + 1..];
    SplitAt(players, k);
    GuiSocketsNotGui(teams, p);
    DropNonGui(teams, a, p, b);
  }

  /** A list is its part before k, its k-th element, and its part after. */
  lemma SplitAt<T>(s: seq<T>, k: nat)
    requires k < |s|
    ensures s == s[..k] + [s[k]] + s[k + 1..]
  {
  }

  /** Taking out a player that is no graphical client keeps the graphical clients. */
  lemma DropNonGui(teams: seq<Team>, a: seq<ServerPlayer>, p: ServerPlayer, b: seq<ServerPlayer>)
    requires GuiSockets(teams, [p]) == []
    ensures GuiSockets(teams, a + [p] + b) == GuiSockets(teams, a + b)
  {
    GuiSocketsAppend(teams, a + [p], b);
    GuiSocketsAppend(teams, a, [p]);
    GuiSocketsAppend(teams, a, b);
  }

  /** A lone player of a player team is no graphical client. */
  lemma GuiSocketsNotGui(teams: seq<Team>, p: ServerPlayer)
    requires InPlayerTeam(teams, p)
    requires PlayerTeamsNamed(teams)
    ensures GuiSockets(teams, [p]) == []
  {
    assert [p][..0] == [];
  }

  /** The graphical clients of a split list are those of each part, in order. */
  lemma {:induction false} GuiSocketsAppend(teams: seq<Team>, a: seq<ServerPlayer>, b: seq<ServerPlayer>)
    ensures GuiSockets(teams, a + b) == GuiSockets(teams, a) + GuiSockets(teams, b)
    decreases |b|
  {
    if b != [] {
      var n := |b| - 1;
      assert (a + b)[..|a + b| - 1] == a + b[..n];
      assert (a + b)[|a + b| - 1] == b[n];
      GuiSocketsAppend(teams, a, b[..n]);
    } else {
      assert a + b == a;
    }
  }
}
