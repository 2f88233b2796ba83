/**
 * The state the server's command handlers share: the teams, their connected
 * players, the tile grid, the eggs, and the messages sent so far. Sending a
 * message appends it to `sent`; a player's pending input lines are its
 * `queue`.
 *
 * The server keeps each player behind a `std::shared_ptr` in its team's member
 * list, and a handler updates the player through that `shared_ptr`. Here the
 * member lists are laid end to end, team after team, in one sequence
 * `players`; each player records the index of its team, and a handler names
 * the player it works on by its index in that sequence. A change to a player
 * is a new sequence with that one entry replaced.
 */
module ServerWorld {
  import opened Orientation
  import opened Resource
  import opened ResourceContainer
  import opened GameMap

  /** The name of the team every graphical client joins. */
  const GraphicTeam: string := "GRAPHIC"

  /** Food a new player starts with. */
  const StartFood: nat := 10

  /**
   * A connected client's player: the fields of Player plus its socket, the
   * in-action and interrupted flags, the connection state, the queue of
   * received lines, and the index of the team whose member list holds it.
   */
  datatype ServerPlayer = ServerPlayer(
    id: int, socket: int, x: int, y: int, level: nat, orientation: Orientation,
    teamName: string, praying: bool, inventory: Stock,
    inAction: bool, interrupted: bool, connected: bool, queue: seq<string>, team: nat)

  /** The ServerPlayer constructor: a new player holds 10 food and nothing else, and is idle. */
  function NewServerPlayer(socket: int, id: int, x: int, y: int, o: Orientation, level: nat,
                           teamName: string, team: nat): (p: ServerPlayer)
    ensures p.socket == socket && p.id == id && p.x == x && p.y == y && p.orientation == o
    ensures p.level == level && p.teamName == teamName && p.team == team
    ensures Quantity(p.inventory, Food) == StartFood && forall r :: r != Food ==> Quantity(p.inventory, r) == 0
    ensures !p.praying && !p.inAction && !p.interrupted && p.connected && p.queue == []
  {
    ServerPlayer(id, socket, x, y, level, o, teamName, false, AddTo(Empty(), Food, StartFood),
                 false, false, true, [], team)
  }

  /** TeamsPlayer (with its capacity clientNb) or TeamsGui. */
  datatype TeamKind = PlayerTeam(clientNb: int) | GuiTeam

  datatype Team = Team(name: string, id: int, kind: TeamKind)

  /** A line written to the client on `socket`. */
  datatype Sent = Sent(socket: int, text: string)

  /** An egg on the map: its id, its team and its tile. */
  datatype EggRecord = EggRecord(id: int, teamId: int, x: int, y: int)

  /** The member lists laid end to end: the players of each team come before those of any later team. */
  predicate Grouped(players: seq<ServerPlayer>)
  {
    forall i, j :: 0 <= i < j < |players| ==> players[i].team <= players[j].team
  }

  /** Indices in the server's loop order, team by team and member by member, none twice. */
  predicate Ascending(list: seq<nat>)
  {
    forall i, j :: 0 <= i < j < |list| ==> list[i] < list[j]
  }

  /** An index of an ascending list is not among the indices before it. */
  lemma AscendingFresh(list: seq<nat>, i: nat)
    requires Ascending(list) && i < |list|
    ensures list[i] !in list[..i]
  {
  }

  /** Whether p is a member of a team named GRAPHIC. */
  predicate IsGui(teams: seq<Team>, p: ServerPlayer)
  {
    p.team < |teams| && teams[p.team].name == GraphicTeam
  }

  /** The sockets of the graphical clients among players, in order. */
  function GuiSockets(teams: seq<Team>, players: seq<ServerPlayer>): seq<int>
  {
    if players == [] then []
    else
      var n := |players| - 1;
      GuiSockets(teams, players[..n]) + if IsGui(teams, players[n]) then [players[n].socket] else []
  }

  /** Sockets and teams are fixed at connection: players that keep both reach the same graphical clients. */
  lemma {:induction false} GuiSocketsKept(teams: seq<Team>, a: seq<ServerPlayer>, b: seq<ServerPlayer>)
    requires |a| == |b|
    requires forall i :: 0 <= i < |a| ==> b[i].socket == a[i].socket && b[i].team == a[i].team
    ensures GuiSockets(teams, b) == GuiSockets(teams, a)
  {
    if a != [] {
      var n := |a| - 1;
      GuiSocketsKept(teams, a[..n], b[..n]);
    }
  }

  /** Replacing one player by another with the same socket and team keeps the graphical clients. */
  lemma GuiSocketsUpdate(teams: seq<Team>, players: seq<ServerPlayer>, i: nat, q: ServerPlayer)
    requires i < |players| && q.socket == players[i].socket && q.team == players[i].team
    ensures GuiSockets(teams, players[i := q]) == GuiSockets(teams, players)
  {
    GuiSocketsKept(teams, players, players[i := q]);
  }

  /** Teams that keep their names keep the same graphical clients. */
  lemma {:induction false} GuiSocketsSameNames(a: seq<Team>, b: seq<Team>, players: seq<ServerPlayer>)
    requires |a| == |b| && forall t :: 0 <= t < |a| ==> a[t].name == b[t].name
    ensures GuiSockets(b, players) == GuiSockets(a, players)
  {
    if players != [] {
      GuiSocketsSameNames(a, b, players[..|players| - 1]);
    }
  }

  /** The size of team t's member list. */
  function MemberCount(players: seq<ServerPlayer>, t: nat): (n: nat)
    ensures n <= |players|
  {
    if players == [] then 0
    else MemberCount(players[..|players| - 1], t) + if players[|players| - 1].team == t then 1 else 0
  }

  /** Every egg id is below n: the next id handed out is new. */
  predicate EggIdsBelow(eggs: seq<EggRecord>, n: int)
  {
    forall k :: 0 <= k < |eggs| ==> eggs[k].id < n
  }

  /** Appending two pieces one after the other appends their concatenation. */
  lemma Regroup<T>(a: seq<T>, b: seq<T>, c: seq<T>)
    ensures a + b + c == a + (b + c)
  {
  }

  /** The same text sent to each socket in order. */
  function ToEach(sockets: seq<int>, text: string): (r: seq<Sent>)
    ensures |r| == |sockets| && forall i :: 0 <= i < |r| ==> r[i] == Sent(sockets[i], text)
  {
    if sockets == [] then [] else [Sent(sockets[0], text)] + ToEach(sockets[1..], text)
  }

  /**
   * CommandHandler's shared state: map size, frequency, team list and the
   * ServerMap's tiles and eggs.
   */
  class CommandHandler {
    const width: nat
    const height: nat
    var freq: int
    var tiles: Grid
    var teams: seq<Team>
    var players: seq<ServerPlayer>
    var eggs: seq<EggRecord>
    var nextEggId: int
    var sent: seq<Sent>
    var commandMap: set<string>
    var guiCommandMap: set<string>

    ghost predicate Valid()
      reads this`tiles
    {
      width > 0 && height > 0 && IsGrid(tiles, width, height)
    }

    constructor (w: nat, h: nat, freq: int, teams: seq<Team>)
      requires w > 0 && h > 0
      ensures Valid() && width == w && height == h && this.freq == freq && this.teams == teams
      ensures tiles == EmptyGrid(w, h) && eggs == [] && sent == [] && commandMap == {} && guiCommandMap == {}
    {
      width, height, this.freq, this.teams := w, h, freq, teams;
      tiles, eggs, nextEggId, sent, commandMap, guiCommandMap := EmptyGrid(w, h), [], 0, [], {}, {};
    }
  }
}
