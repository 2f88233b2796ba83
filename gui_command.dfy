/**
 * CommandHandlerGui: the requests of a graphical client. Each handler answers
 * the requesting client only: the map size, the contents of one tile or of
 * every tile, the team names, a player's position, level or inventory, and
 * the time unit, which "sst" also sets. A player is looked up by id across
 * every team's member list, in list order; an unknown id is answered "ko\n".
 */
module GuiCommand {
  import opened Wrappers
  import opened CppInt
  import opened Text
  import opened Orientation
  import opened Resource
  import opened ResourceContainer
  import opened GameMap
  import opened ServerWorld
  import opened ClientCommand
  import opened MoveCommand

  /** Each text sent to one socket, in order. */
  function Replies(socket: int, texts: seq<string>): seq<Sent>
  {
    if texts == [] then [] else Replies(socket, texts[..|texts| - 1]) + [Sent(socket, texts[|texts| - 1])]
  }

  lemma {:induction false} RepliesAppend(socket: int, a: seq<string>, b: seq<string>)
    ensures Replies(socket, a + b) == Replies(socket, a) + Replies(socket, b)
  {
    if b == [] {
      assert a + b == a;
    } else {
      var n := |b| - 1;
      assert (a + b)[..|a + b| - 1] == a + b[..n];
      RepliesAppend(socket, a, b[..n]);
      Regroup(Replies(socket, a), Replies(socket, b[..n]), [Sent(socket, b[n])]);
    }
  }

  /** One more text sent. */
  lemma RepliesSnoc(socket: int, a: seq<string>, t: string)
    ensures Replies(socket, a + [t]) == Replies(socket, a) + [Sent(socket, t)]
  {
    assert (a + [t])[..|a|] == a;
  }

  /** Sending one more text after some already sent. */
  lemma SentStep(S: seq<Sent>, socket: int, a: seq<string>, t: string)
    ensures S + Replies(socket, a) + [Sent(socket, t)] == S + Replies(socket, a + [t])
  {
    RepliesSnoc(socket, a, t);
    Regroup(S, Replies(socket, a), [Sent(socket, t)]);
  }

  /** Sending some more texts after some already sent. */
  lemma SentAppendStep(S: seq<Sent>, socket: int, a: seq<string>, b: seq<string>)
    ensures S + Replies(socket, a) + Replies(socket, b) == S + Replies(socket, a + b)
  {
    RepliesAppend(socket, a, b);
    Regroup(S, Replies(socket, a), Replies(socket, b));
  }

  /** The rest of a text after its first n characters. */
  lemma DropPrefix(p: string, s: string)
    ensures (p + s)[|p|..] == s
  {
  }

  /** The line text(x) for each x of xs that keep admits, in order. */
  function Lines<T>(xs: seq<T>, keep: T -> bool, text: T -> string): seq<string>
  {
    if xs == [] then [] else Lines(xs[..|xs| - 1], keep, text) + LineIf(xs[|xs| - 1], keep, text)
  }

  function LineIf<T>(x: T, keep: T -> bool, text: T -> string): seq<string>
  {
    if keep(x) then [text(x)] else []
  }

  /** A line is listed exactly when it is the line of an admitted element. */
  lemma {:induction false} LinesHave<T>(xs: seq<T>, keep: T -> bool, text: T -> string, line: string)
    ensures line in Lines(xs, keep, text) <==> exists k :: 0 <= k < |xs| && keep(xs[k]) && line == text(xs[k])
  {
    if xs != [] {
      var n := |xs| - 1;
      LinesHave(xs[..n], keep, text, line);
      if exists k :: 0 <= k < |xs| && keep(xs[k]) && line == text(xs[k]) {
        var k :| 0 <= k < |xs| && keep(xs[k]) && line == text(xs[k]);
        if k < n {
          assert xs[..n][k] == xs[k];
        } else {
          assert line in LineIf(xs[n], keep, text);
        }
      }
    }
  }

  /** The lines of one more element. */
  lemma LinesPrefix<T>(xs: seq<T>, k: nat, keep: T -> bool, text: T -> string)
    requires k < |xs|
    ensures Lines(xs[..k + 1], keep, text) == Lines(xs[..k], keep, text) + LineIf(xs[k], keep, text)
  {
    assert xs[..k + 1][..k] == xs[..k];
  }

  // ---- msz ------------------------------------------------------------------------

  /** "msz X Y\n" */
  function MszText(w: int, h: int): string
  {
    "msz " + IntToString(w) + " " + IntToString(h) + "\n"
  }

  /** After the command word, the reply reads back as the two dimensions. */
  lemma MszReadable(w: int, h: int)
    ensures ReadInts(MszText(w, h)[3..], 2) == Some(([w, h], "\n"))
  {
    NumbersTextPair(w, h);
    var n := NumbersText([w, h]);
    assert "msz " == "msz" + " ";
    GatherPair("msz", IntToString(w), " ", IntToString(h), "\n");
    assert MszText(w, h) == "msz" + (n + "\n");
    DropPrefix("msz", n + "\n");
    ReadIntsOfNumbers([w, h], "\n");
  }

  /** handleMsz. */
  method HandleMsz(h: CommandHandler, gui: ServerPlayer)
    modifies h`sent
    ensures h.sent == old(h.sent) + [Sent(gui.socket, MszText(h.width, h.height))]
  {
    SendTo(h, gui, MszText(h.width, h.height));
  }

  // ---- bct ------------------------------------------------------------------------

  /**
   * `iss >> x >> y` with no word left after them; any failed read fails the
   * request, and so does a value that does not fit an int.
   */
  function ParseBct(arg: string): (r: Option<(int, int)>)
    ensures r.Some? ==> InInt(r.value.0) && InInt(r.value.1)
  {
    match ReadInt(arg)
    case None => None
    case Some((x, rest)) =>
      match ReadInt(rest)
      case None => None
      case Some((y, rest')) => if InInt(x) && InInt(y) && ReadWord(rest').None? then Some((x, y)) else None
  }

  /** Two coordinates written by std::to_string with one space between parse back. */
  lemma ParseBctOfRequest(x: int, y: int)
    requires InInt(x) && InInt(y)
    ensures ParseBct(IntToString(x) + " " + IntToString(y)) == Some((x, y))
  {
    var a, b := IntToString(x), IntToString(y);
    StringAssoc(a, " ", b);
    ReadIntOfIntToString(x, " " + b);
    ReadIntAfterSpace(b);
    ReadIntOfIntToString(y, "");
    AppendEmpty(b);
    ParseBctReads(a + " " + b, x, " " + b, y, "");
  }

  lemma AppendEmpty(s: string)
    ensures s + "" == s
  {
  }

  /** Two successful reads and nothing after them. */
  lemma ParseBctReads(arg: string, x: int, rest: string, y: int, rest': string)
    requires InInt(x) && InInt(y)
    requires ReadInt(arg) == Some((x, rest)) && ReadInt(rest) == Some((y, rest')) && ReadWord(rest').None?
    ensures ParseBct(arg) == Some((x, y))
  {
  }

  /** The bounds check as written: each coordinate may also equal the map's size. */
  predicate BctAcceptsAsWritten(x: int, y: int, w: nat, h: nat)
  {
    0 <= x <= w && 0 <= y <= h
  }

  /** The bounds check that keeps the tile on the map. */
  predicate BctAccepts(x: int, y: int, w: nat, h: nat)
  {
    0 <= x < w && 0 <= y < h
  }

  /**
   * "bct W 0" parses and passes the written check, yet column W is past the
   * last column of the grid: getTile indexes outside the map.
   */
  lemma BctAsWrittenReadsPastGrid(tiles: Grid, w: nat, h: nat)
    requires IsGrid(tiles, w, h) && w <= IntMax
    ensures ParseBct(IntToString(w) + " " + IntToString(0)) == Some((w as int, 0))
    ensures BctAcceptsAsWritten(w, 0, w, h) && !BctAccepts(w, 0, w, h) && |tiles| == w
  {
    ParseBctOfRequest(w, 0);
  }

  /** The corrected check admits exactly the written one's coordinates minus the last column and row. */
  lemma BctAcceptsNarrower(x: int, y: int, w: nat, h: nat)
    ensures BctAccepts(x, y, w, h) <==> BctAcceptsAsWritten(x, y, w, h) && x != w && y != h
  {
  }

  /** "bct X Y q0 ... q6\n", the quantities in resource order. */
  function BctText(x: int, y: int, tile: Stock): string
  {
    "bct " + IntToString(x) + " " + IntToString(y) + NumbersText(tile) + "\n"
  }

  /** The tile's reply, or "ko\n" for a malformed request or a tile off the map. */
  function BctReply(arg: string, tiles: Grid, w: nat, h: nat): (r: string)
    requires IsGrid(tiles, w, h)
    ensures r == "ko\n" <==> !(ParseBct(arg).Some? && BctAccepts(ParseBct(arg).value.0, ParseBct(arg).value.1, w, h))
  {
    match ParseBct(arg)
    case Some((x, y)) =>
      if BctAccepts(x, y, w, h) then
        var r := BctText(x, y, tiles[x][y]);
        assert r[0] == 'b';
        r
      else "ko\n"
    case None => "ko\n"
  }

  /** After the command word, a tile's reply reads back as its coordinates and its seven quantities. */
  lemma BctReadable(x: int, y: int, tile: Stock)
    ensures ReadInts(BctText(x, y, tile)[3..], 9) == Some(([x, y] + tile, "\n"))
  {
    var n := NumbersText([x, y] + tile);
    NumbersTextTwo(x, y, tile);
    assert "bct " == "bct" + " ";
    GatherWord("bct", IntToString(x), " ", IntToString(y), NumbersText(tile), "\n");
    assert BctText(x, y, tile) == "bct" + (n + "\n");
    DropPrefix("bct", n + "\n");
    ReadIntsOfNumbers([x, y] + tile, "\n");
  }

  /** handleBct: the reply goes to the requesting client. */
  method HandleBct(h: CommandHandler, gui: ServerPlayer, arg: string)
    requires h.Valid()
    modifies h`sent
    ensures h.sent == old(h.sent) + [Sent(gui.socket, BctReply(arg, h.tiles, h.width, h.height))]
  {
    var parsed := ParseBct(arg);
    if parsed.None? || !BctAccepts(parsed.value.0, parsed.value.1, h.width, h.height) {
      BctReplyRejected(arg, h.tiles, h.width, h.height);
      SendTo(h, gui, "ko\n");
      return;
    }
    var (x, y) := parsed.value;
    var tile := h.tiles[x][y];
    var head := "bct " + IntToString(x) + " " + IntToString(y);
    var msg := head;
    var k := 0;
    while k < ResourceQuantity
      invariant k <= ResourceQuantity
      invariant msg == head + NumbersText(tile[..k])
      invariant h.sent == old(h.sent)
    {
      NumbersStep(head, tile, k);
      msg := msg + " " + IntToString(tile[k]);
      k := k + 1;
    }
    assert tile[..k] == tile;
    msg := msg + "\n";
    assert msg == BctText(x, y, tile);
    BctReplyAccepted(arg, h.tiles, h.width, h.height, x, y);
    assert msg == BctReply(arg, h.tiles, h.width, h.height);
    SendTo(h, gui, msg);
  }

  /** One more quantity written after a text. */
  lemma NumbersStep(head: string, xs: seq<int>, k: nat)
    requires k < |xs|
    ensures head + NumbersText(xs[..k]) + " " + IntToString(xs[k]) == head + NumbersText(xs[..k + 1])
  {
    NumbersTextPrefix(xs, k);
    Regroup4(head, NumbersText(xs[..k]), " ", IntToString(xs[k]));
  }

  /** A request that fails to parse or names a tile off the map gets "ko\n". */
  lemma BctReplyRejected(arg: string, tiles: Grid, w: nat, h: nat)
    requires IsGrid(tiles, w, h)
    requires ParseBct(arg).None? || !BctAccepts(ParseBct(arg).value.0, ParseBct(arg).value.1, w, h)
    ensures BctReply(arg, tiles, w, h) == "ko\n"
  {
  }

  /** An accepted request gets its tile's reply. */
  lemma BctReplyAccepted(arg: string, tiles: Grid, w: nat, h: nat, x: int, y: int)
    requires IsGrid(tiles, w, h) && ParseBct(arg) == Some((x, y)) && BctAccepts(x, y, w, h)
    ensures BctReply(arg, tiles, w, h) == BctText(x, y, tiles[x][y])
  {
  }

  // ---- mct ------------------------------------------------------------------------

  /** f at rows 0 .. m-1 of column x, in order. */
  function Column<T>(f: (int, int) -> T, x: int, m: nat): seq<T>
  {
    if m == 0 then [] else Column(f, x, m - 1) + [f(x, m - 1)]
  }

  /** f at every row of columns 0 .. n-1, column after column: handleMct's loop order. */
  function Columns<T>(f: (int, int) -> T, h: nat, n: nat): seq<T>
  {
    if n == 0 then [] else Columns(f, h, n - 1) + Column(f, n - 1, h)
  }

  /** The number of tiles in n columns of h rows, counted column by column. */
  function Cells(n: nat, h: nat): nat
  {
    if n == 0 then 0 else Cells(n - 1, h) + h
  }

  lemma {:induction false} CellsProduct(n: nat, h: nat)
    ensures Cells(n, h) == n * h
  {
    if n > 0 {
      CellsProduct(n - 1, h);
      assert (n - 1) * h + h == n * h;
    }
  }

  /** Row y of column x comes at position y. */
  lemma {:induction false} ColumnAt<T>(f: (int, int) -> T, x: int, m: nat, y: nat)
    requires y < m
    ensures |Column(f, x, m)| == m && Column(f, x, m)[y] == f(x, y)
  {
    ColumnLength(f, x, m - 1);
    if y < m - 1 {
      ColumnAt(f, x, m - 1, y);
    }
  }

  lemma {:induction false} ColumnLength<T>(f: (int, int) -> T, x: int, m: nat)
    ensures |Column(f, x, m)| == m
  {
    if m > 0 {
      ColumnLength(f, x, m - 1);
    }
  }

  /** n columns of h rows give an entry per tile. */
  lemma {:induction false} ColumnsLength<T>(f: (int, int) -> T, h: nat, n: nat)
    ensures |Columns(f, h, n)| == Cells(n, h)
  {
    if n > 0 {
      ColumnsLength(f, h, n - 1);
      ColumnLength(f, n - 1, h);
    }
  }

  /** Tile (x, y) follows the x earlier columns' entries, at row y of its own column. */
  lemma {:induction false} ColumnsAt<T>(f: (int, int) -> T, h: nat, n: nat, x: nat, y: nat)
    requires x < n && y < h
    ensures Cells(x, h) + y < |Columns(f, h, n)| && Columns(f, h, n)[Cells(x, h) + y] == f(x, y)
  {
    var prev, col := Columns(f, h, n - 1), Column(f, n - 1, h);
    assert Columns(f, h, n) == prev + col;
    ColumnsLength(f, h, n - 1);
    ColumnLength(f, n - 1, h);
    if x < n - 1 {
      ColumnsAt(f, h, n - 1, x, y);
      assert Columns(f, h, n)[Cells(x, h) + y] == prev[Cells(x, h) + y];
    } else {
      ColumnAt(f, x, h, y);
      assert Cells(x, h) == |prev|;
      assert Columns(f, h, n)[|prev| + y] == col[y];
    }
  }

  /** handleMct's reply for tile (x, y): the bct reply to the request "x y". */
  function TileReply(tiles: Grid, w: nat, h: nat, x: int, y: int): string
  {
    if IsGrid(tiles, w, h) then BctReply(IntToString(x) + " " + IntToString(y), tiles, w, h) else "ko\n"
  }

  function TileReplies(tiles: Grid, w: nat, h: nat): (int, int) -> string
  {
    (x, y) => TileReply(tiles, w, h, x, y)
  }

  /** The replies handleMct sends: every tile's, column after column. */
  function MctTexts(tiles: Grid, w: nat, h: nat): seq<string>
  {
    Columns(TileReplies(tiles, w, h), h, w)
  }

  /** handleMct's requests are accepted: each tile's reply carries that tile. */
  lemma TileReplyOnGrid(tiles: Grid, w: nat, h: nat, x: nat, y: nat)
    requires IsGrid(tiles, w, h) && x < w <= IntMax && y < h <= IntMax
    ensures TileReply(tiles, w, h, x, y) == BctText(x, y, tiles[x][y])
  {
    ParseBctOfRequest(x, y);
  }

  /**
   * handleMct sends a reply per tile, and tile (x, y)'s reply follows the x
   * earlier columns' replies, at row y of its own column: reply number
   * x * h + y, as CellsProduct counts.
   */
  lemma MctOrder(tiles: Grid, w: nat, h: nat, x: nat, y: nat)
    requires IsGrid(tiles, w, h) && x < w <= IntMax && y < h <= IntMax
    ensures |MctTexts(tiles, w, h)| == Cells(w, h)
    ensures Cells(x, h) + y < |MctTexts(tiles, w, h)| && MctTexts(tiles, w, h)[Cells(x, h) + y] == BctText(x, y, tiles[x][y])
  {
    var f := TileReplies(tiles, w, h);
    var m := MctTexts(tiles, w, h);
    assert m == Columns(f, h, w);
    ColumnsLength(f, h, w);
    ColumnsAt(f, h, w, x, y);
    assert m[Cells(x, h) + y] == f(x, y);
    assert f(x, y) == TileReply(tiles, w, h, x, y);
    TileReplyOnGrid(tiles, w, h, x, y);
  }

  /** handleMct: a bct request for every tile. */
  method HandleMct(h: CommandHandler, gui: ServerPlayer)
    requires h.Valid()
    modifies h`sent
    ensures h.sent == old(h.sent) + Replies(gui.socket, MctTexts(h.tiles, h.width, h.height))
  {
    ghost var S := h.sent;
    ghost var f := TileReplies(h.tiles, h.width, h.height);
    var x := 0;
    while x < h.width
      invariant x <= h.width
      invariant h.sent == S + Replies(gui.socket, Columns(f, h.height, x))
    {
      ghost var before := h.sent;
      MctColumn(h, gui, x);
      assert h.sent == before + Replies(gui.socket, Column(f, x, h.height));
      ColumnsStep(S, gui.socket, f, h.height, x);
      x := x + 1;
    }
    assert Columns(f, h.height, x) == MctTexts(h.tiles, h.width, h.height);
  }

  /** Sending column x's replies after those of the columns before it. */
  lemma ColumnsStep(S: seq<Sent>, socket: int, f: (int, int) -> string, h: nat, x: nat)
    ensures S + Replies(socket, Columns(f, h, x)) + Replies(socket, Column(f, x, h)) == S + Replies(socket, Columns(f, h, x + 1))
  {
    SentAppendStep(S, socket, Columns(f, h, x), Column(f, x, h));
  }

  /** Sending row y's reply after those of the rows before it. */
  lemma ColumnStep(S: seq<Sent>, socket: int, f: (int, int) -> string, x: nat, y: nat)
    ensures S + Replies(socket, Column(f, x, y)) + [Sent(socket, f(x, y))] == S + Replies(socket, Column(f, x, y + 1))
  {
    SentStep(S, socket, Column(f, x, y), f(x, y));
  }

  /** The inner loop of handleMct: column x, row by row. */
  method MctColumn(h: CommandHandler, gui: ServerPlayer, x: nat)
    requires h.Valid() && x < h.width
    modifies h`sent
    ensures h.sent == old(h.sent) + Replies(gui.socket, Column(TileReplies(h.tiles, h.width, h.height), x, h.height))
  {
    ghost var S := h.sent;
    ghost var f := TileReplies(h.tiles, h.width, h.height);
    var y := 0;
    while y < h.height
      invariant y <= h.height
      invariant h.sent == S + Replies(gui.socket, Column(f, x, y))
    {
      ghost var before := h.sent;
      HandleBct(h, gui, IntToString(x) + " " + IntToString(y));
      assert f(x, y) == BctReply(IntToString(x) + " " + IntToString(y), h.tiles, h.width, h.height);
      assert h.sent == before + [Sent(gui.socket, f(x, y))];
      ColumnStep(S, gui.socket, f, x, y);
      y := y + 1;
    }
  }

  // ---- tna ------------------------------------------------------------------------

  /** "tna name\n" */
  function TnaText(t: Team): string
  {
    "tna " + t.name + "\n"
  }

  /** Whether handleTna names team t: every team but the graphical clients'. */
  predicate Named(t: Team)
  {
    t.name != GraphicTeam
  }

  /** The tna replies: one per team in list order, the graphical clients' team left out. */
  function TnaTexts(teams: seq<Team>): seq<string>
  {
    Lines(teams, Named, TnaText)
  }

  /** A line is among the tna replies exactly when it names a team other than GRAPHIC. */
  lemma TnaNamesTeams(teams: seq<Team>, line: string)
    ensures line in TnaTexts(teams) <==>
            exists k :: 0 <= k < |teams| && teams[k].name != GraphicTeam && line == "tna " + teams[k].name + "\n"
  {
    LinesHave(teams, Named, TnaText, line);
  }

  /** handleTna. */
  method HandleTna(h: CommandHandler, gui: ServerPlayer)
    modifies h`sent
    ensures h.sent == old(h.sent) + Replies(gui.socket, TnaTexts(h.teams))
  {
    ghost var S := h.sent;
    var teams := h.teams;
    var k := 0;
    while k < |teams|
      invariant k <= |teams|
      invariant h.sent == S + Replies(gui.socket, Lines(teams[..k], Named, TnaText))
    {
      NameTeam(h, gui, teams[k]);
      LinesPrefix(teams, k, Named, TnaText);
      SentAppendStep(S, gui.socket, Lines(teams[..k], Named, TnaText), LineIf(teams[k], Named, TnaText));
      k := k + 1;
    }
    assert teams[..k] == teams;
  }

  /** One turn of handleTna's loop. */
  method NameTeam(h: CommandHandler, gui: ServerPlayer, t: Team)
    modifies h`sent
    ensures h.sent == old(h.sent) + Replies(gui.socket, LineIf(t, Named, TnaText))
  {
    if t.name != GraphicTeam {
      SendTo(h, gui, "tna " + t.name + "\n");
      assert Replies(gui.socket, [TnaText(t)]) == [Sent(gui.socket, TnaText(t))];
    }
  }

  // ---- Looking a player up -----------------------------------------------------------

  /**
   * `stream >> n` into an int: the value read, saturated to the range of
   * int, or 0 when no number can be read.
   */
  function StreamInt(arg: string): (r: int)
    ensures InInt(r)
    ensures ReadInt(arg).None? ==> r == 0
  {
    match ReadInt(arg)
    case Some((v, _)) => Saturate(v)
    case None => 0
  }

  /**
   * A number written in decimal that does not fit an int reads as the
   * nearest bound: "sst 99999999999" sets the time unit to 2147483647.
   */
  lemma StreamIntSaturates(n: int)
    requires !InInt(n)
    ensures StreamInt(IntToString(n)) == if n > IntMax then IntMax else IntMin
  {
    assert IntToString(n) + "" == IntToString(n);
    ReadIntOfIntToString(n, "");
  }

  /** An int written by std::to_string reads back as itself. */
  lemma StreamIntOfIntToString(n: int)
    requires InInt(n)
    ensures StreamInt(IntToString(n)) == n
  {
    assert IntToString(n) + "" == IntToString(n);
    ReadIntOfIntToString(n, "");
  }

  /** The first player, team after team, whose id is id. */
  function FindPlayer(players: seq<ServerPlayer>, id: int): (r: Option<nat>)
    ensures r.Some? ==> r.value < |players| && players[r.value].id == id &&
                        forall j :: 0 <= j < r.value ==> players[j].id != id
    ensures r.None? ==> forall j :: 0 <= j < |players| ==> players[j].id != id
  {
    if players == [] then None
    else if players[0].id == id then Some(0)
    else
      match FindPlayer(players[1..], id)
      case None => None
      case Some(k) => Some(k + 1)
  }

  /** The loops over every team's member list that handlePpo, handlePlv and handlePin share. */
  method LookupPlayer(h: CommandHandler, id: int) returns (r: Option<nat>)
    ensures r == FindPlayer(h.players, id)
  {
    var k := 0;
    while k < |h.players|
      invariant k <= |h.players|
      invariant forall j :: 0 <= j < k ==> h.players[j].id != id
    {
      if h.players[k].id == id {
        return Some(k);
      }
      k := k + 1;
    }
    return None;
  }

  // ---- ppo, plv, pin --------------------------------------------------------------

  /** The orientation as the protocol sends it: North 1, East 2, South 3, West 4. */
  function OrientationCode(o: Orientation): (c: int)
    ensures 1 <= c <= 4
  {
    Index(o) + 1
  }

  /** `static_cast<int>(o + 1)` with the cyclic `+`: the next direction's index, so West is sent as 0. */
  function OrientationCodeAsWritten(o: Orientation): (c: int)
    ensures 0 <= c <= 3
  {
    Index(Add(o, 1))
  }

  /** The cyclic form agrees with the protocol except for West, which it sends as 0 instead of 4. */
  lemma OrientationCodeWrapsWest(o: Orientation)
    ensures OrientationCodeAsWritten(o) == OrientationCode(o) % 4
    ensures OrientationCodeAsWritten(o) == OrientationCode(o) <==> o != Orientation.West
  {
    match o
    case North => assert Add(o, 1) == Orientation.East;
    case East => assert Add(o, 1) == Orientation.South;
    case South => assert Add(o, 1) == Orientation.West;
    case West => assert Add(o, 1) == Orientation.North;
  }

  /**
   * handlePpo as written (taking its uninitialised prefix to be "ppo #"): the
   * position of the player looked up, but the orientation of the requester,
   * through the cyclic `+ 1`.
   */
  function PpoTextAsWritten(p: ServerPlayer, requester: ServerPlayer): string
  {
    "ppo #" + IntToString(p.id) + " " + IntToString(p.x) + " " + IntToString(p.y) + " "
      + IntToString(OrientationCodeAsWritten(requester.orientation)) + "\n"
  }

  /** A graphical client facing West asking about a player facing North is told 0, not 1. */
  lemma PpoAsWrittenMisreports(p: ServerPlayer, requester: ServerPlayer)
    requires p.orientation == Orientation.North && requester.orientation == Orientation.West
    ensures PpoTextAsWritten(p, requester) != PpoText(p)
  {
    var head := "ppo #" + IntToString(p.id) + " " + IntToString(p.x) + " " + IntToString(p.y) + " ";
    assert PpoTextAsWritten(p, requester) == head + "0\n";
    assert PpoText(p) == head + "1\n";
    assert (head + "0\n")[|head|] == '0';
    assert (head + "1\n")[|head|] == '1';
  }

  /**
   * The ppo reply for id, as handlePpo writes it: the first such player's
   * position with the requester's orientation code, or "ko\n".
   */
  function PpoReply(players: seq<ServerPlayer>, id: int, requester: ServerPlayer): string
  {
    match FindPlayer(players, id)
    case Some(k) => PpoTextAsWritten(players[k], requester)
    case None => "ko\n"
  }

  /** "plv #id level\n" */
  function PlvText(p: ServerPlayer): string
  {
    "plv #" + IntToString(p.id) + " " + IntToString(p.level) + "\n"
  }

  function PlvReply(players: seq<ServerPlayer>, id: int): string
  {
    match FindPlayer(players, id)
    case Some(k) => PlvText(players[k])
    case None => "ko\n"
  }

  /** "pin #id x y q0 ... q6\n": the seven quantities in names order, one space between each. */
  function PinText(p: ServerPlayer): string
  {
    "pin #" + IntToString(p.id) + " " + IntToString(p.x) + " " + IntToString(p.y) + NumbersText(p.inventory) + "\n"
  }

  function PinReply(players: seq<ServerPlayer>, id: int): string
  {
    match FindPlayer(players, id)
    case Some(k) => PinText(players[k])
    case None => "ko\n"
  }

  /**
   * Asking about a player by its id, written in decimal, gets that player's
   * position (with the requester's orientation), level and inventory, unless
   * an earlier player holds the same id.
   */
  lemma ReplyAboutPlayer(players: seq<ServerPlayer>, k: nat, requester: ServerPlayer)
    requires k < |players| && InInt(players[k].id)
    requires forall j :: 0 <= j < k ==> players[j].id != players[k].id
    ensures var id := StreamInt(IntToString(players[k].id));
      PpoReply(players, id, requester) == PpoTextAsWritten(players[k], requester) &&
      PlvReply(players, id) == PlvText(players[k]) &&
      PinReply(players, id) == PinText(players[k])
  {
    StreamIntOfIntToString(players[k].id);
    FoundFirst(players, k);
  }

  /** The lookup stops at the first player holding the id. */
  lemma FoundFirst(players: seq<ServerPlayer>, k: nat)
    requires k < |players| && forall j :: 0 <= j < k ==> players[j].id != players[k].id
    ensures FindPlayer(players, players[k].id) == Some(k)
  {
  }

  /** An id no player holds gets "ko\n" from all three requests. */
  lemma ReplyAboutNobody(players: seq<ServerPlayer>, id: int, requester: ServerPlayer)
    requires forall j :: 0 <= j < |players| ==> players[j].id != id
    ensures PpoReply(players, id, requester) == "ko\n" && PlvReply(players, id) == "ko\n" && PinReply(players, id) == "ko\n"
  {
  }

  /** After "pin #", the reply reads back as the id, the tile and the seven quantities. */
  lemma PinReadable(p: ServerPlayer)
    ensures ReadInts(PinText(p)[5..], 10) == Some(([p.id, p.x, p.y] + p.inventory, "\n"))
  {
    var xs := [p.x, p.y] + p.inventory;
    var v, n := IntToString(p.id), NumbersText(xs);
    NumbersTextTwo(p.x, p.y, p.inventory);
    Gather("pin #", v, " ", IntToString(p.x), " ", IntToString(p.y), NumbersText(p.inventory), "\n");
    assert PinText(p) == "pin #" + (v + n + "\n");
    DropPrefix("pin #", v + n + "\n");
    ReadIntsAfterFirst(p.id, xs);
    ConsThree(p.id, p.x, p.y, p.inventory);
  }

  /** "ppo #id x y c\n" */
  function PpoLine(id: int, x: int, y: int, c: int): string
  {
    "ppo #" + IntToString(id) + " " + IntToString(x) + " " + IntToString(y) + " " + IntToString(c) + "\n"
  }

  /** After "ppo #", a ppo line reads back as its four numbers, and only its newline is left. */
  lemma PpoLineReadable(id: int, x: int, y: int, c: int)
    ensures ReadInts(PpoLine(id, x, y, c)[5..], 4) == Some(([id, x, y, c], "\n"))
  {
    var v := IntToString(id);
    var xs := [x, y] + [c];
    var n := NumbersText(xs);
    NumbersTextTwo(x, y, [c]);
    NumbersTextOne(c);
    GatherNine("ppo #", v, " ", IntToString(x), " ", IntToString(y), " ", IntToString(c), "\n");
    assert PpoLine(id, x, y, c) == "ppo #" + (v + n + "\n");
    DropPrefix("ppo #", v + n + "\n");
    ReadIntsAfterFirst(id, xs);
    ConsFour(id, x, y, c);
  }

  /** After "ppo #", the movement report reads back as the id, the tile and the player's orientation code. */
  lemma PpoReadable(p: ServerPlayer)
    ensures ReadInts(PpoText(p)[5..], 4) == Some(([p.id, p.x, p.y, OrientationCode(p.orientation)], "\n"))
  {
    assert PpoText(p) == PpoLine(p.id, p.x, p.y, OrientationCode(p.orientation));
    PpoLineReadable(p.id, p.x, p.y, OrientationCode(p.orientation));
  }

  /**
   * After "ppo #", handlePpo's reply reads back as the id and the tile of the
   * player looked up, followed by the requester's cyclic code (0 to 3).
   */
  lemma PpoAsWrittenReadable(p: ServerPlayer, requester: ServerPlayer)
    ensures ReadInts(PpoTextAsWritten(p, requester)[5..], 4)
         == Some(([p.id, p.x, p.y, OrientationCodeAsWritten(requester.orientation)], "\n"))
  {
    assert PpoTextAsWritten(p, requester) == PpoLine(p.id, p.x, p.y, OrientationCodeAsWritten(requester.orientation));
    PpoLineReadable(p.id, p.x, p.y, OrientationCodeAsWritten(requester.orientation));
  }

  /** handlePpo: the looked-up player's tile, but the orientation of the requesting client. */
  method HandlePpo(h: CommandHandler, gui: ServerPlayer, arg: string)
    modifies h`sent
    ensures h.sent == old(h.sent) + [Sent(gui.socket, PpoReply(h.players, StreamInt(arg), gui))]
  {
    var found := LookupPlayer(h, StreamInt(arg));
    match found
    case Some(k) => SendTo(h, gui, PpoTextAsWritten(h.players[k], gui));
    case None => SendTo(h, gui, "ko\n");
  }

  /** handlePlv. */
  method HandlePlv(h: CommandHandler, gui: ServerPlayer, arg: string)
    modifies h`sent
    ensures h.sent == old(h.sent) + [Sent(gui.socket, PlvReply(h.players, StreamInt(arg)))]
  {
    var found := LookupPlayer(h, StreamInt(arg));
    match found
    case Some(k) => SendTo(h, gui, PlvText(h.players[k]));
    case None => SendTo(h, gui, "ko\n");
  }

  /** handlePin: each quantity is written with a space after it, and the last space is taken back. */
  method HandlePin(h: CommandHandler, gui: ServerPlayer, arg: string)
    modifies h`sent
    ensures h.sent == old(h.sent) + [Sent(gui.socket, PinReply(h.players, StreamInt(arg)))]
  {
    var found := LookupPlayer(h, StreamInt(arg));
    if found.None? {
      SendTo(h, gui, "ko\n");
      return;
    }
    var p := h.players[found.value];
    var head := "pin #" + IntToString(p.id) + " " + IntToString(p.x) + " " + IntToString(p.y);
    var msg := WriteQuantities(head, p.inventory);
    DropLast(head + NumbersText(p.inventory), " ");
    msg := msg[..|msg| - 1];
    msg := msg + "\n";
    assert msg == PinText(p);
    SendTo(h, gui, msg);
  }

  /** handlePin's loop over the resource names: each quantity after the text, followed by a space. */
  method WriteQuantities(head: string, inv: Stock) returns (msg: string)
    ensures msg == head + NumbersText(inv) + " "
  {
    msg := head + " ";
    var k := 0;
    while k < ResourceQuantity
      invariant k <= ResourceQuantity
      invariant msg == head + NumbersText(inv[..k]) + " "
    {
      NameAtIndex(k);
      var r := GetResource(Names[k]).value;
      assert Quantity(inv, r) == inv[k];
      NumbersTextPrefix(inv, k);
      PinStep(head, NumbersText(inv[..k]), IntToString(inv[k]));
      msg := msg + IntToString(Quantity(inv, r)) + " ";
      k := k + 1;
    }
    assert inv[..k] == inv;
  }

  /** pop_back takes back the one character appended last. */
  lemma DropLast(t: string, c: string)
    requires |c| == 1
    ensures (t + c)[..|t + c| - 1] == t
  {
  }

  lemma PinStep(head: string, n: string, q: string)
    ensures head + n + " " + q + " " == head + (n + " " + q) + " "
  {
  }

  // ---- sgt, sst -------------------------------------------------------------------

  /** "sgt T\n" */
  function SgtText(freq: int): string
  {
    "sgt " + IntToString(freq) + "\n"
  }

  /** After the command word, the reply reads back as the time unit. */
  lemma SgtReadable(freq: int)
    ensures ReadInts(SgtText(freq)[3..], 1) == Some(([freq], "\n"))
  {
    NumbersTextPrefix([freq], 0);
    var n := NumbersText([freq]);
    assert SgtText(freq) == "sgt" + (n + "\n");
    DropPrefix("sgt", n + "\n");
    ReadIntsOfNumbers([freq], "\n");
  }

  /** handleSgt. */
  method HandleSgt(h: CommandHandler, gui: ServerPlayer)
    modifies h`sent
    ensures h.sent == old(h.sent) + [Sent(gui.socket, SgtText(h.freq))]
  {
    SendTo(h, gui, SgtText(h.freq));
  }

  /** handleSst: the value read (0 when none can be) becomes the time unit, and is reported back. */
  method HandleSst(h: CommandHandler, gui: ServerPlayer, arg: string)
    modifies h`freq, h`sent
    ensures h.freq == StreamInt(arg)
    ensures h.sent == old(h.sent) + [Sent(gui.socket, SgtText(StreamInt(arg)))]
  {
    h.freq := StreamInt(arg);
    SendTo(h, gui, SgtText(h.freq));
  }

  // ---- pnw ------------------------------------------------------------------------

  /** Whether p is in the member list of a player team (TeamsPlayer). */
  predicate InPlayerTeam(teams: seq<Team>, p: ServerPlayer)
  {
    p.team < |teams| && teams[p.team].kind.PlayerTeam?
  }

  /** "pnw #id x y o level team\n" with the protocol's orientation code 1 to 4. */
  function PnwText(p: ServerPlayer): string
  {
    "pnw #" + IntToString(p.id) + " " + IntToString(p.x) + " " + IntToString(p.y) + " "
      + IntToString(OrientationCode(p.orientation)) + " " + IntToString(p.level) + " " + p.teamName + "\n"
  }

  /** handlePnw's line as written: the orientation through the cyclic `+ 1`. */
  function PnwTextAsWritten(p: ServerPlayer): string
  {
    "pnw #" + IntToString(p.id) + " " + IntToString(p.x) + " " + IntToString(p.y) + " "
      + IntToString(OrientationCodeAsWritten(p.orientation)) + " " + IntToString(p.level) + " " + p.teamName + "\n"
  }

  /** A player facing West is announced with orientation 0, which is no orientation of the protocol. */
  lemma PnwAsWrittenMisreportsWest(p: ServerPlayer)
    requires p.orientation == Orientation.West
    ensures PnwTextAsWritten(p) != PnwText(p)
  {
    var head := "pnw #" + IntToString(p.id) + " " + IntToString(p.x) + " " + IntToString(p.y) + " ";
    var tail := " " + IntToString(p.level) + " " + p.teamName + "\n";
    GatherTail(head, "0", " ", IntToString(p.level), " ", p.teamName, "\n");
    GatherTail(head, "4", " ", IntToString(p.level), " ", p.teamName, "\n");
    assert PnwTextAsWritten(p) == head + ("0" + tail);
    assert PnwText(p) == head + ("4" + tail);
    assert (head + ("0" + tail))[|head|] == '0';
    assert (head + ("4" + tail))[|head|] == '4';
  }

  /** The pnw lines for the first n players: those in player teams, in order. */
  function PnwTexts(teams: seq<Team>, players: seq<ServerPlayer>, n: nat): seq<string>
    requires n <= |players|
  {
    Lines(players[..n], p => InPlayerTeam(teams, p), PnwTextAsWritten)
  }

  /** Every player of a player team is announced, and nobody else. */
  lemma PnwAnnouncesPlayers(teams: seq<Team>, players: seq<ServerPlayer>, line: string)
    ensures line in PnwTexts(teams, players, |players|) <==>
            exists k :: 0 <= k < |players| && InPlayerTeam(teams, players[k]) && line == PnwTextAsWritten(players[k])
  {
    assert players[..|players|] == players;
    LinesHave(players, p => InPlayerTeam(teams, p), PnwTextAsWritten, line);
  }

  /** handlePnw for a newly connected graphical client. */
  method HandlePnw(h: CommandHandler, gui: ServerPlayer)
    modifies h`sent
    ensures h.sent == old(h.sent) + Replies(gui.socket, PnwTexts(h.teams, h.players, |h.players|))
  {
    ghost var S := h.sent;
    var teams, players := h.teams, h.players;
    ghost var keep := p => InPlayerTeam(teams, p);
    var k := 0;
    while k < |players|
      invariant k <= |players|
      invariant h.sent == S + Replies(gui.socket, Lines(players[..k], keep, PnwTextAsWritten))
    {
      AnnounceOne(h, gui, teams, players[k]);
      LinesPrefix(players, k, keep, PnwTextAsWritten);
      SentAppendStep(S, gui.socket, Lines(players[..k], keep, PnwTextAsWritten), LineIf(players[k], keep, PnwTextAsWritten));
      k := k + 1;
    }
  }

  /** One turn of handlePnw's loops. */
  method AnnounceOne(h: CommandHandler, gui: ServerPlayer, teams: seq<Team>, p: ServerPlayer)
    modifies h`sent
    ensures h.sent == old(h.sent) + Replies(gui.socket, LineIf(p, q => InPlayerTeam(teams, q), PnwTextAsWritten))
  {
    if InPlayerTeam(teams, p) {
      SendTo(h, gui, PnwTextAsWritten(p));
      assert Replies(gui.socket, [PnwTextAsWritten(p)]) == [Sent(gui.socket, PnwTextAsWritten(p))];
    }
  }

  // ---- processClientInput ---------------------------------------------------------

  /** The request names initCommandMap registers for graphical clients. */
  const GuiCommandNames: set<string> := {"msz", "bct", "mct", "tna", "ppo", "plv", "pin", "sgt", "sst"}

  /** initCommandMap. */
  method InitGuiCommandMap(h: CommandHandler)
    modifies h`guiCommandMap
    ensures h.guiCommandMap == GuiCommandNames && |h.guiCommandMap| == 9
  {
    h.guiCommandMap := GuiCommandNames;
  }

  /** The request and its argument: every '#' taken out, then cut at the first space. */
  function GuiRequest(input: string): (string, string)
  {
    SplitInput(RemoveAll(input, '#'))
  }

  /**
   * What a graphical client's request sends to it, given the state it reads:
   * the handler's replies for a known request, "suc\n" for any other.
   */
  function GuiAnswer(cmd: string, args: string, gui: ServerPlayer, tiles: Grid, w: nat, h: nat,
                     teams: seq<Team>, players: seq<ServerPlayer>, freq: int): (r: seq<Sent>)
    requires IsGrid(tiles, w, h)
    ensures cmd !in GuiCommandNames ==> r == [Sent(gui.socket, "suc\n")]
  {
    var socket := gui.socket;
    match cmd
    case "msz" => [Sent(socket, MszText(w, h))]
    case "bct" => [Sent(socket, BctReply(args, tiles, w, h))]
    case "mct" => Replies(socket, MctTexts(tiles, w, h))
    case "tna" => Replies(socket, TnaTexts(teams))
    case "ppo" => [Sent(socket, PpoReply(players, StreamInt(args), gui))]
    case "plv" => [Sent(socket, PlvReply(players, StreamInt(args)))]
    case "pin" => [Sent(socket, PinReply(players, StreamInt(args)))]
    case "sgt" => [Sent(socket, SgtText(freq))]
    case "sst" => [Sent(socket, SgtText(StreamInt(args)))]
    case _ => [Sent(socket, "suc\n")]
  }

  /** The oldest queued line taken off, if there is one. */
  function Popped(p: ServerPlayer): (q: ServerPlayer)
    ensures q == p.(queue := q.queue)
    ensures p.queue == [] ==> q.queue == []
    ensures p.queue != [] ==> [p.queue[0]] + q.queue == p.queue
  {
    if p.queue == [] then p else p.(queue := p.queue[1..])
  }

  /**
   * processClientInput for graphical client i: the request is answered as
   * GuiAnswer says, from the state before it; "sst" sets the time unit;
   * and the oldest queued line is consumed, whether the request was known
   * or not.
   */
  method ProcessGuiInput(h: CommandHandler, i: nat, input: string)
    requires h.Valid() && i < |h.players|
    requires h.guiCommandMap == {} || h.guiCommandMap == GuiCommandNames
    modifies h`guiCommandMap, h`sent, h`players, h`freq
    ensures h.guiCommandMap == GuiCommandNames
    ensures var (cmd, args) := GuiRequest(input);
      h.sent == old(h.sent) + GuiAnswer(cmd, args, old(h.players[i]), h.tiles, h.width, h.height,
                                        h.teams, old(h.players), old(h.freq)) &&
      h.freq == (if cmd == "sst" then StreamInt(args) else old(h.freq))
    ensures h.players == old(h.players)[i := Popped(old(h.players[i]))]
  {
    if h.guiCommandMap == {} {
      InitGuiCommandMap(h);
    }
    var plain := EraseAll(input, '#');
    var (cmd, args) := SplitInput(plain);
    var gui := h.players[i];
    if cmd in h.guiCommandMap {
      RunGuiCommand(h, gui, cmd, args);
    } else {
      SendTo(h, gui, "suc\n");
    }
    h.players := h.players[i := Popped(gui)];
  }

  /** The handler initCommandMap registers for cmd, run for the requesting client. */
  method RunGuiCommand(h: CommandHandler, gui: ServerPlayer, cmd: string, args: string)
    requires h.Valid() && cmd in GuiCommandNames
    modifies h`sent, h`freq
    ensures h.sent == old(h.sent) + GuiAnswer(cmd, args, gui, h.tiles, h.width, h.height, h.teams, h.players, old(h.freq))
    ensures h.freq == (if cmd == "sst" then StreamInt(args) else old(h.freq))
  {
    match cmd
    case "msz" => HandleMsz(h, gui);
    case "bct" => HandleBct(h, gui, args);
    case "mct" => HandleMct(h, gui);
    case "tna" => HandleTna(h, gui);
    case "ppo" => HandlePpo(h, gui, args);
    case "plv" => HandlePlv(h, gui, args);
    case "pin" => HandlePin(h, gui, args);
    case "sgt" => HandleSgt(h, gui);
    case "sst" => HandleSst(h, gui, args);
  }

  /**
   * A graphical client's request "cmd #n", with or without its newline, reaches
   * the handler as the name and the id n; any other name is answered "suc\n".
   */
  lemma RequestReachesHandler(cmd: string, n: int, newline: bool)
    requires InInt(n)
    requires ' ' !in cmd && '#' !in cmd
    ensures var input := cmd + " #" + IntToString(n) + (if newline then "\n" else "");
      GuiRequest(input) == (cmd, IntToString(n)) && StreamInt(GuiRequest(input).1) == n
  {
    var v := IntToString(n);
    IntToStringWithout(n, '#');
    if newline {
      StripHash(cmd, v, "\n");
      SplitInputRoundTrip(cmd, v);
    } else {
      StripHash(cmd, v, "");
      assert cmd + " " + v + "" == cmd + " " + v;
      SplitInputRoundTrip(cmd, v);
      IntToStringWithout(n, '\n');
      assert v[|v| - 1] in v;
    }
    StreamIntOfIntToString(n);
  }

  /** Taking the '#' out of "cmd #v" followed by e, when none of the pieces holds one. */
  lemma StripHash(cmd: string, v: string, e: string)
    requires '#' !in cmd && '#' !in v && '#' !in e
    ensures RemoveAll(cmd + " #" + v + e, '#') == cmd + " " + v + e
  {
    var tail := v + e;
    var hashed := "#" + tail;
    var spaced := " " + hashed;
    Regroup4(cmd, " #", v, e);
    assert " #" + tail == spaced;
    RemoveAllAppend(cmd, spaced, '#');
    RemoveAllAppend(" ", hashed, '#');
    RemoveAllAppend("#", tail, '#');
    RemoveAllAbsent(cmd, '#');
    assert '#' !in tail;
    RemoveAllAbsent(tail, '#');
    assert RemoveAll(" ", '#') == " ";
    assert RemoveAll("#", '#') == "";
    assert RemoveAll(hashed, '#') == tail;
    assert RemoveAll(spaced, '#') == " " + tail;
    Regroup4(cmd, " ", v, e);
  }
}
