/**
 * Look: the tiles a player sees, line by line in front of it on the wrapped
 * map, and the "[...]" reply that lists their contents separated by commas.
 */
module LookCommand {
  import opened Text
  import opened Orientation
  import opened CppInt
  import opened Resource
  import opened ResourceContainer
  import opened GameMap
  import opened Players
  import opened ServerWorld
  import opened ClientCommand
  import opened EjectCommand

  // ---- Coordinates ------------------------------------------------------------

  /**
   * _normalizeCoords as written: the int coordinate is passed as a size_t,
   * so a negative one first wraps to 2^64 + c, and ((u % n) + n) % n is
   * then taken on that.
   */
  function NormalizeAsWritten(c: int, n: nat): (r: nat)
    requires n > 0
    ensures r < n
  {
    ((ToSize(c) % n) + n) % n
  }

  /** The coordinate brought back into [0, n): the value in range that differs from c by a multiple of n (the Euclidean remainder). */
  function NormalizeCoord(c: int, n: nat): (r: nat)
    requires n > 0
    ensures r < n && c - r == n * (c / n)
    ensures 0 <= c < n ==> r == c
  {
    c % n
  }

  lemma AddModulus(a: int, n: nat)
    requires n > 0 && 0 <= a < n
    ensures (a + n) % n == a
  {
    assert a + n == 1 * n + a;
  }

  /** On a non-negative coordinate the written code computes the true remainder. */
  lemma NormalizeAsWrittenNonNegative(c: int, n: nat)
    requires n > 0 && 0 <= c < SizeModulus
    ensures NormalizeAsWritten(c, n) == NormalizeCoord(c, n)
  {
    AddModulus(c % n, n);
  }

  /** (a + b) % n from the remainders of a and b. */
  lemma ModSum(a: int, b: int, n: nat)
    requires n > 0
    ensures (a + b) % n == (a % n + b % n) % n
  {
    var q := a / n + b / n;
    assert a + b == q * n + (a % n + b % n);
    ModShift(a % n + b % n, q, n);
  }

  /** Adding a multiple of n leaves the remainder unchanged. */
  lemma ModShift(r: int, q: int, n: nat)
    requires n > 0
    ensures (q * n + r) % n == r % n
  {
    var d := (q * n + r) / n - r / n - q;
    assert q * n + r == ((q * n + r) / n) * n + (q * n + r) % n;
    assert r == (r / n) * n + r % n;
    assert d * n == r % n - (q * n + r) % n;
    MultipleSign(d, n);
  }

  /** A non-zero multiple of n is at least n away from zero. */
  lemma MultipleSign(d: int, n: int)
    requires n > 0
    ensures d >= 1 ==> d * n >= n
    ensures d <= -1 ==> d * n <= -n
  {
  }

  /**
   * On a negative coordinate (down to -2^64) the written code is off by
   * 2^64 % n: it agrees with the true remainder exactly when n divides
   * 2^64.
   */
  lemma NormalizeAsWrittenNegative(c: int, n: nat)
    requires n > 0 && -(SizeModulus as int) <= c < 0
    ensures NormalizeAsWritten(c, n) == (NormalizeCoord(c, n) + SizeModulus % n) % n
    ensures NormalizeAsWritten(c, n) == NormalizeCoord(c, n) <==> SizeModulus % n == 0
  {
    WrappedRemainder(c, n, SizeModulus);
    OffsetRemainder(c % n, SizeModulus % n, n);
  }

  /** The remainder of c + m, brought into [0, n) once more, from those of c and m. */
  lemma WrappedRemainder(c: int, n: nat, m: int)
    requires n > 0
    ensures (((m + c) % n) + n) % n == (c % n + m % n) % n
  {
    AddModulus((m + c) % n, n);
    ModSum(c, m, n);
  }

  /** Shifting a remainder a by b in [0, n) leaves it unchanged exactly when b is 0. */
  lemma OffsetRemainder(a: int, b: int, n: nat)
    requires n > 0 && 0 <= a < n && 0 <= b < n
    ensures (a + b) % n == a <==> b == 0
  {
    if a + b < n {
      SmallRemainder(a + b, n);
    } else {
      ModShift(a + b - n, 1, n);
      assert 1 * n + (a + b - n) == a + b;
      SmallRemainder(a + b - n, n);
    }
  }

  lemma SmallRemainder(x: int, n: nat)
    requires 0 <= x < n
    ensures x % n == x
  {
  }

  /** Looking one tile left from column 0 of a 10-wide map reaches column 5 instead of column 9. */
  lemma NormalizeAsWrittenWrapsWrong()
    ensures NormalizeAsWritten(-1, 10) == 5
    ensures NormalizeCoord(-1, 10) == 9
  {
    assert ToSize(-1) == 18446744073709551615;
    assert 18446744073709551615 == 1844674407370955161 * 10 + 5;
    AddModulus(5, 10);
    assert -1 == -1 * 10 + 9;
  }

  // ---- Look targets -----------------------------------------------------------

  /**
   * The step between neighbouring tiles of one line of sight, from the
   * lowest offset to the highest: East for a player facing North or South,
   * South for one facing East or West.
   */
  function Side(o: Orientation): (v: (int, int))
  {
    if o == Orientation.North || o == Orientation.South then (1, 0) else (0, 1)
  }

  /**
   * _computeLookTarget: the tile `line` steps ahead of (x, y) and `offset`
   * steps along Side(o), before wrapping.
   */
  function LookTarget(x: int, y: int, o: Orientation, line: nat, offset: int): (r: (int, int))
    ensures r == (x + line * DirectionVector(o).0 + offset * Side(o).0, y + line * DirectionVector(o).1 + offset * Side(o).1)
  {
    var (dx, dy) := DirectionVector(o);
    (x + dx * line + (if o == Orientation.North || o == Orientation.South then offset else dy * offset),
     y + dy * line + (if o == Orientation.East || o == Orientation.West then offset else -dx * offset))
  }

  /** Different (line, offset) pairs aim at different tiles; line 0, offset 0 is the player's own tile. */
  lemma LookTargetInjective(x: int, y: int, o: Orientation, l1: nat, f1: int, l2: nat, f2: int)
    ensures LookTarget(x, y, o, l1, f1) == LookTarget(x, y, o, l2, f2) <==> l1 == l2 && f1 == f2
    ensures LookTarget(x, y, o, 0, 0) == (x, y)
  {
  }

  /**
   * Side is perpendicular to the facing direction. It points to the
   * player's right when facing North or East and to its left when facing
   * South or West, so those two list each line from right to left.
   */
  lemma SideRelativeToFacing(o: Orientation)
    ensures Side(o).0 * DirectionVector(o).0 + Side(o).1 * DirectionVector(o).1 == 0
    ensures (o == Orientation.North || o == Orientation.East) ==> Side(o) == DirectionVector(Next(o))
    ensures (o == Orientation.South || o == Orientation.West) ==> Side(o) == DirectionVector(Prev(o))
  {
  }

  // ---- One tile's content -----------------------------------------------------------

  /** n copies of word. */
  function Repeat(word: string, n: nat): (r: seq<string>)
    ensures |r| == n && forall i :: 0 <= i < n ==> r[i] == word
  {
    if n == 0 then [] else Repeat(word, n - 1) + [word]
  }

  /** One name per unit of the kinds below i, kind by kind in names order. */
  function UnitsBelow(s: Stock, i: nat): (r: seq<string>)
    requires i <= ResourceQuantity
    ensures |r| + SumFrom(s, i) == Total(s)
  {
    if i == 0 then [] else UnitsBelow(s, i - 1) + Repeat(Names[i - 1], s[i - 1])
  }

  /** The units of a stock, as the look reply names them. */
  function Units(s: Stock): (r: seq<string>)
    ensures |r| == Total(s)
  {
    UnitsBelow(s, ResourceQuantity)
  }

  /** Each word preceded by one space. */
  function Spaced(ws: seq<string>): string
  {
    if ws == [] then "" else Spaced(ws[..|ws| - 1]) + " " + ws[|ws| - 1]
  }

  lemma {:induction false} SpacedAppend(a: seq<string>, b: seq<string>)
    ensures Spaced(a + b) == Spaced(a) + Spaced(b)
  {
    if b == [] {
      assert a + b == a;
    } else {
      var n := |b| - 1;
      assert (a + b)[..|a + b| - 1] == a + b[..n];
      SpacedAppend(a, b[..n]);
    }
  }

  /** Words preceded by a space each are the space-joined words behind one space. */
  lemma {:induction false} SpacedIsSpaceThenJoin(ws: seq<string>)
    requires ws != []
    ensures Spaced(ws) == " " + Join(ws, " ")
  {
    var n := |ws| - 1;
    assert ws[..n] + [ws[n]] == ws;
    JoinSnoc(ws[..n], ws[n], " ");
    if n > 0 {
      SpacedIsSpaceThenJoin(ws[..n]);
    }
  }

  /** The item words of a tile: each after a space when `lead`, otherwise space-separated. */
  function Items(lead: bool, us: seq<string>): string
  {
    if lead then Spaced(us) else Join(us, " ")
  }

  /**
   * _getTileContent as written: " player" per player, then the units after
   * a space each on the looker's own tile, and space-separated elsewhere
   * with no space after the last " player".
   */
  function TileContentAsWritten(players: nat, s: Stock, own: bool): string
  {
    Spaced(Repeat("player", players)) + Items(own, Units(s))
  }

  /** The tile content with a space between the last " player" and the first item. */
  function TileContent(players: nat, s: Stock, own: bool): string
  {
    Spaced(Repeat("player", players)) + Items(own || players > 0, Units(s))
  }

  /**
   * A tile lists "player" once per player and then one name per unit,
   * separated by single spaces; a space comes first exactly when the tile
   * is the looker's own or holds a player.
   */
  lemma TileContentWords(players: nat, s: Stock, own: bool)
    ensures own || players > 0 ==> TileContent(players, s, own) == Spaced(Repeat("player", players) + Units(s))
    ensures !own && players == 0 ==> TileContent(players, s, own) == Join(Units(s), " ")
  {
    SpacedAppend(Repeat("player", players), Units(s));
    if players == 0 {
      assert Repeat("player", players) == [];
    }
  }

  /** The written code loses the space exactly on a tile other than the looker's that holds both players and items. */
  lemma TileContentAsWrittenDiffers(players: nat, s: Stock, own: bool)
    ensures TileContentAsWritten(players, s, own) != TileContent(players, s, own) <==> !own && players > 0 && Units(s) != []
  {
    if !own && players > 0 && Units(s) != [] {
      SpacedIsSpaceThenJoin(Units(s));
      assert |TileContent(players, s, own)| == |TileContentAsWritten(players, s, own)| + 1;
    }
  }

  /** One player and one food on a tile ahead: the written code replies " playerfood". */
  lemma TileContentAsWrittenRunsTogether()
    ensures TileContentAsWritten(1, AddTo(Empty(), Food, 1), false) == " playerfood"
    ensures TileContent(1, AddTo(Empty(), Food, 1), false) == " player food"
  {
    var s := AddTo(Empty(), Food, 1);
    OneFoodUnits();
    OnePlayerOneUnit(s, "food");
    assert " player" + "food" == " playerfood";
    assert " player " + "food" == " player food";
  }

  /** A tile other than the looker's with one player and one unit u. */
  lemma OnePlayerOneUnit(s: Stock, u: string)
    requires Units(s) == [u]
    ensures TileContentAsWritten(1, s, false) == " player" + u
    ensures TileContent(1, s, false) == " player " + u
  {
    assert Repeat("player", 1) == ["player"];
    SpacedOne("player");
    SpacedOne(u);
    JoinOne(u, " ");
    StringAssoc(" player", " ", u);
  }

  lemma SpacedOne(w: string)
    ensures Spaced([w]) == " " + w
  {
    assert [w][..0] == [];
  }

  /** A stock of one food names a single unit. */
  lemma OneFoodUnits()
    ensures Units(AddTo(Empty(), Food, 1)) == ["food"]
  {
    var s := AddTo(Empty(), Food, 1);
    assert s == [1, 0, 0, 0, 0, 0, 0];
    assert UnitsBelow(s, 1) == ["food"];
    assert UnitsBelow(s, 2) == ["food"];
    assert UnitsBelow(s, 3) == ["food"];
    assert UnitsBelow(s, 4) == ["food"];
    assert UnitsBelow(s, 5) == ["food"];
    assert UnitsBelow(s, 6) == ["food"];
  }

  /** A unit added to the item words: it gets a space unless it is the first word and there is no lead. */
  lemma ItemsSnoc(lead: bool, us: seq<string>, u: string)
    ensures Items(lead, us + [u]) == Items(lead, us) + (if lead || us != [] then " " + u else u)
  {
    JoinSnoc(us, u, " ");
    assert (us + [u])[..|us|] == us;
  }

  /** ItemsSnoc behind the player words. */
  lemma UnitStep(prefix: string, lead: bool, us: seq<string>, u: string)
    ensures prefix + Items(lead, us + [u]) == prefix + Items(lead, us) + (if lead || us != [] then " " + u else u)
  {
    ItemsSnoc(lead, us, u);
  }

  /** The first loop of _getTileContent: " player" once per listed player. */
  method PlayerWords(list: seq<nat>) returns (content: string)
    ensures content == Spaced(Repeat("player", |list|))
  {
    content := "";
    var k := 0;
    while k < |list|
      invariant 0 <= k <= |list| && content == Spaced(Repeat("player", k))
    {
      content := content + " player";
      assert Repeat("player", k + 1)[..k] == Repeat("player", k);
      k := k + 1;
    }
  }

  /**
   * The inner loop of _getTileContent: q units of the kind called name. On
   * the own tile each gets a space; elsewhere a space separates it from
   * what came before, if anything did.
   */
  method AppendUnits(content: string, hasContent: bool, own: bool, name: string, q: nat,
                     ghost prefix: string, ghost lead: bool, ghost us: seq<string>)
    returns (content': string, hasContent': bool)
    requires own ==> lead
    requires content == prefix + Items(lead, us)
    requires (own || hasContent) == (lead || us != [])
    ensures content' == prefix + Items(lead, us + Repeat(name, q))
    ensures (own || hasContent') == (lead || us + Repeat(name, q) != [])
  {
    content', hasContent' := content, hasContent;
    assert us + Repeat(name, 0) == us;
    var j := 0;
    while j < q
      invariant 0 <= j <= q
      invariant content' == prefix + Items(lead, us + Repeat(name, j))
      invariant (own || hasContent') == (lead || us + Repeat(name, j) != [])
    {
      ghost var done := us + Repeat(name, j);
      content', hasContent' := AppendUnit(content', hasContent', own, name, prefix, lead, done);
      assert done + [name] == us + Repeat(name, j + 1);
      j := j + 1;
    }
  }

  /** One pass of the units loop: the name, after a space unless it is the first word of a tile other than the looker's. */
  method AppendUnit(content: string, hasContent: bool, own: bool, name: string,
                    ghost prefix: string, ghost lead: bool, ghost done: seq<string>)
    returns (content': string, hasContent': bool)
    requires own ==> lead
    requires content == prefix + Items(lead, done)
    requires (own || hasContent) == (lead || done != [])
    ensures content' == prefix + Items(lead, done + [name])
    ensures own || hasContent'
  {
    if own {
      content', hasContent' := content + " " + name, hasContent;
      assert content' == content + (" " + name);
    } else {
      content' := content;
      if hasContent {
        content' := content' + " ";
      }
      content' := content' + name;
      assert content' == content + (if hasContent then " " + name else name);
      hasContent' := true;
    }
    ItemsAfter(content, prefix, lead, done, name);
  }

  /** The text one pass appends, in terms of the item words. */
  lemma ItemsAfter(content: string, prefix: string, lead: bool, done: seq<string>, name: string)
    requires content == prefix + Items(lead, done)
    ensures content + (if lead || done != [] then " " + name else name) == prefix + Items(lead, done + [name])
  {
    UnitStep(prefix, lead, done, name);
    StringAssoc(prefix, Items(lead, done), if lead || done != [] then " " + name else name);
  }

  /**
   * _getTileContent on (x, y): the players there (the looker among them on
   * its own tile) and the tile's units. As written, no space separates the
   * last " player" from the first item on a tile other than the looker's.
   */
  method GetTileContent(h: CommandHandler, x: nat, y: nat, own: bool) returns (content: string)
    requires h.Valid() && x < h.width && y < h.height
    ensures content == TileContentAsWritten(|PlayersOnTile(h.teams, h.players, x, y)|, h.tiles[x][y], own)
  {
    var list := GetPlayerOnTile(h, x, y);
    content := PlayerWords(list);
    ghost var players := content;
    var tile := h.tiles[x][y];
    var hasContent := false;
    ghost var lead := own;
    var i := 0;
    while i < ResourceQuantity
      invariant 0 <= i <= ResourceQuantity
      invariant content == players + Items(lead, UnitsBelow(tile, i))
      invariant (own || hasContent) == (lead || UnitsBelow(tile, i) != [])
    {
      content, hasContent := AppendUnits(content, hasContent, own, Names[i], tile[i], players, lead, UnitsBelow(tile, i));
      i := i + 1;
    }
  }

  // ---- The whole view -------------------------------------------------------------

  /** What the reply depends on in the looking player: its position, orientation and level. */
  datatype Sight = Sight(x: int, y: int, o: Orientation, level: nat)

  function SightOf(p: ServerPlayer): Sight
  {
    Sight(p.x, p.y, p.orientation, p.level)
  }

  /** The content of the tile at (line, offset) of the view, wrapped onto the map. */
  function TileAt(teams: seq<Team>, players: seq<ServerPlayer>, tiles: Grid, w: nat, hgt: nat, s: Sight, line: nat, offset: int): string
    requires w > 0 && hgt > 0 && IsGrid(tiles, w, hgt)
  {
    var t := LookTarget(s.x, s.y, s.o, line, offset);
    var x := NormalizeAsWritten(t.0, w);
    var y := NormalizeAsWritten(t.1, hgt);
    TileContentAsWritten(|PlayersOnTile(teams, players, x, y)|, tiles[x][y], line == 0 && offset == 0)
  }

  /** The 2 * line + 1 tiles of one line, offsets -line to line. */
  function LineTiles(teams: seq<Team>, players: seq<ServerPlayer>, tiles: Grid, w: nat, hgt: nat, s: Sight, line: nat): (r: seq<string>)
    requires w > 0 && hgt > 0 && IsGrid(tiles, w, hgt)
    ensures |r| == 2 * line + 1
  {
    seq(2 * line + 1, j => TileAt(teams, players, tiles, w, hgt, s, line, j - line))
  }

  /** The tiles of lines 0 to n - 1, line after line. */
  function ViewTiles(teams: seq<Team>, players: seq<ServerPlayer>, tiles: Grid, w: nat, hgt: nat, s: Sight, n: nat): seq<string>
    requires w > 0 && hgt > 0 && IsGrid(tiles, w, hgt)
  {
    if n == 0 then [] else ViewTiles(teams, players, tiles, w, hgt, s, n - 1) + LineTiles(teams, players, tiles, w, hgt, s, n - 1)
  }

  /** _buildLookMessage: the tiles of lines 0 to level, comma-separated, in brackets. */
  function LookMessage(teams: seq<Team>, players: seq<ServerPlayer>, tiles: Grid, w: nat, hgt: nat, s: Sight): string
    requires w > 0 && hgt > 0 && IsGrid(tiles, w, hgt)
  {
    "[" + Join(ViewTiles(teams, players, tiles, w, hgt, s, s.level + 1), ",") + "]\n"
  }

  /** Lines 0 to n - 1 hold n * n tiles. */
  lemma {:induction false} ViewTilesLength(teams: seq<Team>, players: seq<ServerPlayer>, tiles: Grid, w: nat, hgt: nat, s: Sight, n: nat)
    requires w > 0 && hgt > 0 && IsGrid(tiles, w, hgt)
    ensures |ViewTiles(teams, players, tiles, w, hgt, s, n)| == n * n
  {
    if n > 0 {
      ViewTilesLength(teams, players, tiles, w, hgt, s, n - 1);
      assert n * n == (n - 1) * (n - 1) + 2 * (n - 1) + 1;
    }
  }

  /** Tile j of line l is entry l * l + j of the view. */
  lemma {:induction false} ViewTilesIndex(teams: seq<Team>, players: seq<ServerPlayer>, tiles: Grid, w: nat, hgt: nat, s: Sight, n: nat, l: nat, j: nat)
    requires w > 0 && hgt > 0 && IsGrid(tiles, w, hgt)
    requires l < n && j < 2 * l + 1
    ensures l * l + j < |ViewTiles(teams, players, tiles, w, hgt, s, n)|
    ensures ViewTiles(teams, players, tiles, w, hgt, s, n)[l * l + j] == TileAt(teams, players, tiles, w, hgt, s, l, j - l)
  {
    ViewTilesLength(teams, players, tiles, w, hgt, s, n - 1);
    if l < n - 1 {
      ViewTilesIndex(teams, players, tiles, w, hgt, s, n - 1, l, j);
    } else {
      assert (n - 1) * (n - 1) == l * l;
    }
  }

  /**
   * The reply covers (level + 1)^2 tiles in brackets, ends with a newline,
   * and starts with the looker's own tile.
   */
  lemma LookMessageShape(teams: seq<Team>, players: seq<ServerPlayer>, tiles: Grid, w: nat, hgt: nat, s: Sight)
    requires w > 0 && hgt > 0 && IsGrid(tiles, w, hgt)
    ensures |ViewTiles(teams, players, tiles, w, hgt, s, s.level + 1)| == (s.level + 1) * (s.level + 1)
    ensures ViewTiles(teams, players, tiles, w, hgt, s, s.level + 1)[0] == TileAt(teams, players, tiles, w, hgt, s, 0, 0)
    ensures var m := LookMessage(teams, players, tiles, w, hgt, s); m[0] == '[' && m[|m| - 2..] == "]\n"
  {
    ViewTilesLength(teams, players, tiles, w, hgt, s, s.level + 1);
    ViewTilesIndex(teams, players, tiles, w, hgt, s, s.level + 1, 0, 0);
  }

  /** _checkLastTileInLook: the last tile of the last line, after which no comma follows. */
  predicate IsLastTile(level: nat, line: nat, offset: int)
  {
    line == level && offset == line
  }

  /**
   * _lookLine: the tiles of one line, each followed by a comma except the
   * very last tile of the view (the last one of line == level).
   */
  method LookLine(h: CommandHandler, s: Sight, line: nat) returns (lineMsg: string)
    requires h.Valid() && line <= s.level
    ensures line < s.level ==> lineMsg == Terminated(LineTiles(h.teams, h.players, h.tiles, h.width, h.height, s, line), ",")
    ensures line == s.level ==> lineMsg == Join(LineTiles(h.teams, h.players, h.tiles, h.width, h.height, s, line), ",")
  {
    ghost var tiles := LineTiles(h.teams, h.players, h.tiles, h.width, h.height, s, line);
    lineMsg := "";
    var offset: int := -(line as int);
    while offset <= line
      invariant -(line as int) <= offset <= line + 1
      invariant offset <= line ==> lineMsg == Terminated(tiles[..offset + line], ",")
      invariant offset == line + 1 && line < s.level ==> lineMsg == Terminated(tiles, ",")
      invariant offset == line + 1 && line == s.level ==> lineMsg == Join(tiles, ",")
    {
      var content := LookTile(h, s, line, offset);
      ghost var c: nat := offset + line;
      assert content == tiles[c];
      LineStep(tiles, c, lineMsg);
      lineMsg := lineMsg + content;
      if !IsLastTile(s.level, line, offset) {
        lineMsg := lineMsg + ",";
      }
      offset := offset + 1;
    }
  }

  /** One more tile of a line: followed by a comma, or closing the join when it is the last. */
  lemma LineStep(tiles: seq<string>, c: nat, msg: string)
    requires c < |tiles| && msg == Terminated(tiles[..c], ",")
    ensures msg + tiles[c] + "," == Terminated(tiles[..c + 1], ",")
    ensures c + 1 == |tiles| ==> msg + tiles[c] + "," == Terminated(tiles, ",") && msg + tiles[c] == Join(tiles, ",")
  {
    TerminatedPrefix(tiles, c, ",");
    if c + 1 == |tiles| {
      assert tiles[..c + 1] == tiles;
    }
  }

  /** _buildLookMessage for the looking player s: lines 0 to level, in brackets. */
  method BuildLookMessage(h: CommandHandler, s: Sight) returns (msg: string)
    requires h.Valid()
    ensures msg == LookMessage(h.teams, h.players, h.tiles, h.width, h.height, s)
  {
    msg := "[";
    var line := 0;
    while line <= s.level
      invariant 0 <= line <= s.level + 1
      invariant line <= s.level ==> msg == "[" + Terminated(ViewTiles(h.teams, h.players, h.tiles, h.width, h.height, s, line), ",")
      invariant line == s.level + 1 ==> msg == "[" + Join(ViewTiles(h.teams, h.players, h.tiles, h.width, h.height, s, line), ",")
    {
      var lineMsg := LookLine(h, s, line);
      ViewStep(h.teams, h.players, h.tiles, h.width, h.height, s, line);
      msg := msg + lineMsg;
      line := line + 1;
    }
    msg := msg + "]\n";
  }

  /** Adding line n to the view extends the terminated and the joined forms of the tiles. */
  lemma ViewStep(teams: seq<Team>, players: seq<ServerPlayer>, tiles: Grid, w: nat, hgt: nat, s: Sight, n: nat)
    requires w > 0 && hgt > 0 && IsGrid(tiles, w, hgt)
    ensures Terminated(ViewTiles(teams, players, tiles, w, hgt, s, n + 1), ",")
      == Terminated(ViewTiles(teams, players, tiles, w, hgt, s, n), ",") + Terminated(LineTiles(teams, players, tiles, w, hgt, s, n), ",")
    ensures Join(ViewTiles(teams, players, tiles, w, hgt, s, n + 1), ",")
      == Terminated(ViewTiles(teams, players, tiles, w, hgt, s, n), ",") + Join(LineTiles(teams, players, tiles, w, hgt, s, n), ",")
  {
    var a := ViewTiles(teams, players, tiles, w, hgt, s, n);
    var b := LineTiles(teams, players, tiles, w, hgt, s, n);
    assert ViewTiles(teams, players, tiles, w, hgt, s, n + 1) == a + b;
    TerminatedAppend(a, b, ",");
    JoinAppend(a, b, ",");
  }

  /** One tile of _lookLine: its target, wrapped onto the map, and its content. */
  method LookTile(h: CommandHandler, s: Sight, line: nat, offset: int) returns (content: string)
    requires h.Valid()
    ensures content == TileAt(h.teams, h.players, h.tiles, h.width, h.height, s, line, offset)
  {
    var t := LookTarget(s.x, s.y, s.o, line, offset);
    var x := NormalizeAsWritten(t.0, h.width);
    var y := NormalizeAsWritten(t.1, h.height);
    content := GetTileContent(h, x, y, line == 0 && offset == 0);
  }

  /**
   * handleLook for player i: once the wait completes the player leaves its
   * action and receives the view, built from the map as the wait left it.
   * An interrupted wait sends nothing.
   */
  method HandleLook(h: CommandHandler, i: nat, ejectedMeanwhile: bool)
    requires i < |h.players| && h.Valid()
    modifies h`players, h`sent
    ensures WaitCompletes(old(h.players[i]), Look, ejectedMeanwhile) ==>
      h.players == old(h.players)[i := Waited(old(h.players[i]), Look, ejectedMeanwhile).(inAction := false)] &&
      h.sent == old(h.sent) + [Sent(old(h.players[i]).socket,
                                    LookMessage(h.teams, old(h.players)[i := Waited(old(h.players[i]), Look, ejectedMeanwhile)],
                                                h.tiles, h.width, h.height, SightOf(old(h.players[i]))))]
    ensures !WaitCompletes(old(h.players[i]), Look, ejectedMeanwhile) ==>
      h.players == old(h.players)[i := Waited(old(h.players[i]), Look, ejectedMeanwhile)] && h.sent == old(h.sent)
  {
    var completed := WaitCommand(h, i, Look, ejectedMeanwhile);
    if !completed {
      return;
    }
    var p := h.players[i];
    var msg := BuildLookMessage(h, SightOf(p));
    h.players := h.players[i := p.(inAction := false)];
    SendTo(h, p, msg);
  }
}
