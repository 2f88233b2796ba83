/**
 * The graphical client's picture of the game: the server's frequency, the
 * map, and the teams, eggs and players it has been told about. The lists
 * store copies, so later changes to the object handed in do not reach them.
 */
module GuiGameState {
  import opened ResourceContainer
  import opened GameMap
  import opened Eggs
  import opened Players

  /** The frequency a new state starts with. */
  const DefaultFrequency: nat := 100

  /** Two players agree on every field. */
  predicate SamePlayer(a: Player, b: Player)
    reads a, b
  {
    a.id == b.id && a.fatherId == b.fatherId && a.x == b.x && a.y == b.y &&
    a.level == b.level && a.orientation == b.orientation && a.teamName == b.teamName &&
    a.praying == b.praying && a.inventory == b.inventory
  }

  /** The copy push_back makes of a player. */
  method CopyPlayer(p: Player) returns (c: Player)
    ensures fresh(c) && SamePlayer(c, p)
  {
    c := new Player(p.id, p.x, p.y, p.orientation, p.level);
    c.fatherId, c.teamName, c.praying := p.fatherId, p.teamName, p.praying;
    c.inventory := p.inventory;
  }

  class GameState {
    var frequency: nat
    var gameMap: Map?
    var teams: seq<string>
    var eggs: seq<Egg>
    var players: seq<Player>

    /** Once installed, the map is a well-formed grid. */
    ghost predicate Valid()
      reads this, gameMap
    {
      gameMap != null ==> gameMap.Valid()
    }

    /** GameState(): frequency 100, no map yet, and nothing known. */
    constructor ()
      ensures Valid()
      ensures frequency == DefaultFrequency && gameMap == null
      ensures teams == [] && eggs == [] && players == []
    {
      frequency, gameMap := DefaultFrequency, null;
      teams, eggs, players := [], [], [];
    }

    /** setFrequency: the value getFrequency returns from now on. */
    method SetFrequency(f: nat)
      modifies this`frequency
      ensures GetFrequency() == f
    {
      frequency := f;
    }

    function GetFrequency(): nat
      reads this
    {
      frequency
    }

    /** initMap: a fresh width x height map of empty tiles replaces the old one. */
    method InitMap(width: nat, height: nat)
      modifies this`gameMap
      ensures Valid() && gameMap != null && fresh(gameMap)
      ensures gameMap.width == width && gameMap.height == height && gameMap.tiles == EmptyGrid(width, height)
    {
      gameMap := new Map(width, height);
    }

    /** getTile: the map's tile at (x, y). */
    function GetTile(x: nat, y: nat): (t: Stock)
      requires Valid() && gameMap != null && x < gameMap.width && y < gameMap.height
      reads this, gameMap
      ensures t == gameMap.tiles[x][y]
    {
      gameMap.GetTile(x, y)
    }

    /** updateTile: Map::setTile on the current map; only that tile changes. */
    method UpdateTile(x: nat, y: nat, tile: Stock)
      requires Valid() && gameMap != null && x < gameMap.width && y < gameMap.height
      modifies gameMap`tiles
      ensures Valid()
      ensures gameMap.tiles == WithTile(old(gameMap.tiles), x, y, tile)
      ensures GetTile(x, y) == tile
    {
      gameMap.SetTile(x, y, tile);
    }

    /** addTeam: the name goes at the end. */
    method AddTeam(name: string)
      modifies this`teams
      ensures teams == old(teams) + [name]
    {
      teams := teams + [name];
    }

    /** addEgg: a new egg with these fields goes at the end; the others are the same objects. */
    method AddEgg(eggId: int, fatherId: int, x: int, y: int)
      modifies this`eggs
      ensures |eggs| == |old(eggs)| + 1 && eggs[..|old(eggs)|] == old(eggs)
      ensures var e := eggs[|eggs| - 1]; fresh(e) && e.id == eggId && e.fatherId == fatherId && e.x == x && e.y == y
    {
      var e := new Egg(eggId, fatherId, x, y);
      eggs := eggs + [e];
    }

    /** addPlayer: a copy of the player goes at the end; the others are the same objects. */
    method AddPlayer(p: Player)
      modifies this`players
      ensures |players| == |old(players)| + 1 && players[..|old(players)|] == old(players)
      ensures var c := players[|players| - 1]; fresh(c) && c != p && SamePlayer(c, p)
    {
      var c := CopyPlayer(p);
      players := players + [c];
    }
  }
}
