/**
 * The graphical client's side of the protocol. Each line from the server is
 * dispatched on its three-letter code to a handler that reads its
 * parameters with a std::istringstream, then updates the game state or
 * tells the renderer. Handlers whose parameters carry '#' before an id
 * remove every '#' first. The renderer is a log of the calls it receives.
 */
module Protocol {
  import opened Wrappers
  import opened CppInt
  import opened Text
  import opened Resource
  import opened ResourceContainer
  import opened GameMap
  import opened GuiGameState
  import opened ProtocolStream
  import O = Orientation
  import GP = GuiProtocol

  /** What the client asks its renderer to do. */
  datatype RendererCall =
    | Init
    | SetFrequency(frequency: nat)
    | AddPlayer(id: int, x: int, y: int, orientation: int, level: nat, team: string)
    | UpdatePlayerPosition(id: int, x: int, y: int, orientation: int)
    | UpdatePlayerLevel(id: int, level: nat)
    | UpdatePlayerInventory(id: int, inventory: Stock)
    | PlayerExpulsion(id: int)
    | PlayerBroadcast(id: int, message: string)
    | StartIncantation(tileX: nat, tileY: nat, incantationLevel: nat, ids: seq<int>)
    | EndIncantation(tileX: nat, tileY: nat, success: bool)
    | AddEgg(eggId: int, fatherId: int, x: int, y: int)
    | HatchEgg(eggId: int)
    | RemoveEgg(eggId: int)
    | RemovePlayer(id: int)
    | EndGame(team: string)

  /** The parameters with every '#' removed. */
  function Unsharped(params: string): string
  {
    RemoveAll(params, '#')
  }

  /** A size_t value converted to a 32-bit int: its low 32 bits, read in two's complement. */
  function ToInt32(u: nat): (v: int)
    ensures InInt(v)
    ensures u <= IntMax ==> v == u
  {
    var m := u % 0x1_0000_0000;
    if m > IntMax then m - 0x1_0000_0000 else m
  }

  /**
   * static_cast<Orientation>(o - 1) for the wire code read into the size_t
   * o: the subtraction wraps modulo 2^64 and the cast keeps the low 32 bits
   * of the enumeration's int.
   */
  function OrientationValue(code: int): int
  {
    ToInt32(ToSize(ToSize(code) - 1))
  }

  /** Whatever the wrap-arounds on the way, every code of the int range arrives as itself minus one. */
  lemma OrientationValueIsPredecessor(code: int)
    requires IntMin < code <= IntMax
    ensures OrientationValue(code) == code - 1
  {
    if code <= 0 {
      assert ToSize(ToSize(code) - 1) == SizeModulus + code - 1;
      assert (SizeModulus + code - 1) % 0x1_0000_0000 == 0x1_0000_0000 + code - 1;
    }
  }

  /** The direction an enumeration value names: 0 to 3 are NORTH to WEST, any other value names none. */
  function Direction(e: int): (d: Option<O.Orientation>)
    ensures d.Some? <==> 0 <= e < 4
    ensures d.Some? ==> O.Index(d.value) == e
  {
    if 0 <= e < 4 then Some(O.FromIndex(e)) else None
  }

  /** The wire codes 1 to 4 name the four directions; 0 names none. */
  lemma WireCodes(o: O.Orientation)
    ensures Direction(OrientationValue(O.Index(o) + 1)) == Some(o)
    ensures Direction(OrientationValue(0)) == None
  {
    OrientationValueIsPredecessor(O.Index(o) + 1);
    OrientationValueIsPredecessor(0);
    O.IndexInjective(Direction(O.Index(o)).value, o);
  }

  /** The seven counts read into size_t variables, kind by kind. */
  function CountsOf(sl: seq<Slot>): (s: Stock)
    requires |sl| == ResourceQuantity
    ensures forall i :: 0 <= i < ResourceQuantity ==> s[i] == SizeVal(sl[i])
  {
    seq(ResourceQuantity, i requires 0 <= i < ResourceQuantity => SizeVal(sl[i]))
  }

  /** `stream >> word` into an empty std::string on a good stream: the next word, or "" when there is none. */
  function WordOrEmpty(s: string): string
  {
    match ReadWord(s)
    case Some((word, _)) => word
    case None => ""
  }

  /** `stream >> word` after the number reads: a failed stream leaves the string empty. */
  function WordOf(st: Option<string>): string
  {
    if st.Some? then WordOrEmpty(st.value) else ""
  }

  // ---- what each handler reads ---------------------------------------------------------

  /** handleMapSize: width and height, read into size_t. */
  function MapDims(params: string): (nat, nat)
  {
    var sl := Reads(params, 2).0;
    (SizeVal(sl[0]), SizeVal(sl[1]))
  }

  /** handleTileContent: x and y, then the seven counts; the tile exists only if every read succeeded. */
  function Tile(params: string): Option<(int, int, Stock)>
  {
    var (sl, st) := Reads(params, 2 + ResourceQuantity);
    if st.Some? then Some((Val(sl[0]), Val(sl[1]), CountsOf(sl[2..]))) else None
  }

  /** handleNewPlayer: "#id x y o level team"; None when a value it passes on was never set. */
  function NewPlayerCall(params: string): Option<RendererCall>
  {
    var (sl, st) := Reads(Unsharped(params), 5);
    if Usable(sl) then
      Some(AddPlayer(Val(sl[0]), Val(sl[1]), Val(sl[2]), OrientationValue(Val(sl[3])), SizeVal(sl[4]), WordOf(st)))
    else None
  }

  /** handlePlayerPosition: "#id x y o". */
  function PositionCall(params: string): Option<RendererCall>
  {
    var sl := Reads(Unsharped(params), 4).0;
    if Usable(sl) then Some(UpdatePlayerPosition(Val(sl[0]), Val(sl[1]), Val(sl[2]), OrientationValue(Val(sl[3])))) else None
  }

  /** handlePlayerLevel: "#id level". */
  function LevelCall(params: string): Option<RendererCall>
  {
    var sl := Reads(Unsharped(params), 2).0;
    if Usable(sl) then Some(UpdatePlayerLevel(Val(sl[0]), SizeVal(sl[1]))) else None
  }

  /** handlePlayerInventory: "#id x y" and the seven counts; a call only if every read succeeded. */
  function InventoryCall(params: string): Option<RendererCall>
  {
    var (sl, st) := Reads(Unsharped(params), 3 + ResourceQuantity);
    if st.Some? then Some(UpdatePlayerInventory(Val(sl[0]), CountsOf(sl[3..]))) else None
  }

  /** handlePlayerInventory's call, in terms of what its reads leave. */
  lemma InventoryOf(params: string, all: seq<Slot>, st: Option<string>)
    requires Reads(Unsharped(params), 3 + ResourceQuantity) == (all, st)
    ensures st.None? ==> InventoryCall(params).None?
    ensures st.Some? ==> InventoryCall(params) == Some(UpdatePlayerInventory(Val(all[0]), CountsOf(all[3..])))
  {
  }

  /** The handlers that read one id after removing '#'. */
  function IdOf(params: string): Option<int>
  {
    var sl := Reads(Unsharped(params), 1).0;
    if Usable(sl) then Some(Val(sl[0])) else None
  }

  /** handlePlayerBroadcast: "#id" and then `>> message`, which stops at the first blank. */
  function BroadcastCall(params: string): Option<RendererCall>
  {
    var (sl, st) := Reads(Unsharped(params), 1);
    if Usable(sl) then Some(PlayerBroadcast(Val(sl[0]), WordOf(st))) else None
  }

  /** The text after the id: one separating blank dropped, then everything up to the end of the line. */
  function LineAfterBlank(rest: string): (line: string)
    ensures '\n' !in line
  {
    var t := if rest != [] && rest[0] == ' ' then rest[1..] else rest;
    match Find(t, '\n')
    case Some(k) => t[..k]
    case None => t
  }

  /**
   * What handlePlayerBroadcast evidently means to do: the id after " #",
   * then the whole message, blanks and '#' included, up to the newline.
   */
  function BroadcastCallCorrected(params: string): Option<RendererCall>
  {
    if |params| >= 2 && params[..2] == " #" then
      match ReadInt(params[2..])
      case Some((id, rest)) => Some(PlayerBroadcast(id, LineAfterBlank(rest)))
      case None => None
    else None
  }

  /** handleIncantationStart: x, y and level into size_t, then every int that follows, as ids. */
  function IncantationStartCall(params: string): Option<RendererCall>
  {
    var (sl, st) := Reads(Unsharped(params), 3);
    if Usable(sl) then
      Some(StartIncantation(SizeVal(sl[0]), SizeVal(sl[1]), SizeVal(sl[2]), if st.Some? then ReadAll(st.value) else []))
    else None
  }

  /** handleIncantationEnd: x and y into size_t and the result into a bool, which any value but 0 sets. */
  function IncantationEndCall(params: string): Option<RendererCall>
  {
    var sl := Reads(params, 3).0;
    if Usable(sl) then Some(EndIncantation(SizeVal(sl[0]), SizeVal(sl[1]), Val(sl[2]) != 0)) else None
  }

  /** handleEggCreated: "#egg #player x y". */
  function EggCreatedCall(params: string): Option<RendererCall>
  {
    var sl := Reads(Unsharped(params), 4).0;
    if Usable(sl) then Some(AddEgg(Val(sl[0]), Val(sl[1]), Val(sl[2]), Val(sl[3]))) else None
  }

  /** handleTimeUnit: the time unit, read into size_t. */
  function TimeUnitOf(params: string): Option<nat>
  {
    var sl := Reads(params, 1).0;
    if Usable(sl) then Some(SizeVal(sl[0])) else None
  }

  function OneCall(r: Option<RendererCall>): Option<seq<RendererCall>>
  {
    if r.Some? then Some([r.value]) else None
  }

  /** The handlers that only log what they read: every value they read must be set. */
  function Logged(params: string, n: nat): Option<seq<RendererCall>>
  {
    if Usable(Reads(Unsharped(params), n).0) then Some([]) else None
  }

  /**
   * The renderer calls the bound handler of cmd makes, given the frequency
   * the game state holds; None when the handler would use a variable that
   * no read set. The map size, tile content and team name handlers change
   * the game state instead.
   */
  function Calls(cmd: GP.GuiProtocol, params: string, frequency: nat): Option<seq<RendererCall>>
  {
    match cmd
    case MapSize => if Usable(Reads(params, 2).0) then Some([Init]) else None
    case NewPlayer => OneCall(NewPlayerCall(params))
    case PlayerPosition => OneCall(PositionCall(params))
    case PlayerLevel => OneCall(LevelCall(params))
    case PlayerInventory => Some(if InventoryCall(params).Some? then [InventoryCall(params).value] else [])
    case PlayerExpulsion => if IdOf(params).Some? then Some([PlayerExpulsion(IdOf(params).value)]) else None
    case PlayerBroadcast => OneCall(BroadcastCall(params))
    case IncantationStart => OneCall(IncantationStartCall(params))
    case IncantationEnd => OneCall(IncantationEndCall(params))
    case EggLaying => Logged(params, 1)
    case ResourceDrop => Logged(params, 2)
    case ResourceCollect => Logged(params, 2)
    case PlayerDeath => if IdOf(params).Some? then Some([RemovePlayer(IdOf(params).value)]) else None
    case EggCreated => OneCall(EggCreatedCall(params))
    case EggHatch => if IdOf(params).Some? then Some([HatchEgg(IdOf(params).value)]) else None
    case EggDestroyed => if IdOf(params).Some? then Some([RemoveEgg(IdOf(params).value)]) else None
    case TimeUnitRequest => TimeUnitCalls(params, frequency)
    case TimeUnitModification => TimeUnitCalls(params, frequency)
    case GameEnd => Some([EndGame(WordOrEmpty(params))])
    case _ => Some([])
  }

  /** handleTimeUnit tells the renderer only a time unit that differs from the game state's frequency. */
  function TimeUnitCalls(params: string, frequency: nat): Option<seq<RendererCall>>
  {
    if TimeUnitOf(params).Some? then
      Some(if TimeUnitOf(params).value != frequency then [SetFrequency(TimeUnitOf(params).value)] else [])
    else None
  }

  /** The grid after a tile content line: the tile read replaces the one at (x, y), if every read succeeded. */
  function TilesAfter(params: string, g: Grid): Grid
  {
    match Tile(params)
    case None => g
    case Some((x, y, t)) => if 0 <= x < |g| && 0 <= y < |g[x]| then WithTile(g, x, y, t) else g
  }

  /** The enumerators initHandlers binds: all but MAP_CONTENT and SIZE. */
  const BoundCommands: seq<GP.GuiProtocol> := [
    GP.MapSize, GP.TileContent, GP.TeamName, GP.NewPlayer, GP.PlayerPosition, GP.PlayerLevel,
    GP.PlayerInventory, GP.PlayerExpulsion, GP.PlayerBroadcast, GP.IncantationStart,
    GP.IncantationEnd, GP.EggLaying, GP.ResourceDrop, GP.ResourceCollect, GP.PlayerDeath,
    GP.EggCreated, GP.EggHatch, GP.EggDestroyed, GP.TimeUnitRequest, GP.TimeUnitModification,
    GP.GameEnd, GP.ServerMessage, GP.UnknownCommand, GP.CommandParameter]

  /** The handler table initHandlers builds: true marks a bound handler. */
  function BoundHandlers(): map<GP.GuiProtocol, bool>
  {
    map p | p in BoundCommands :: true
  }

  /** Every enumerator but MAP_CONTENT and SIZE has a bound handler. */
  lemma BoundHandlersCover(p: GP.GuiProtocol)
    ensures p in BoundHandlers() <==> p != GP.MapContent && p != GP.Size
    ensures p in BoundHandlers() ==> BoundHandlers()[p]
  {
    if p in BoundCommands {
      BoundCommandsExclude(p);
    }
    if p != GP.MapContent && p != GP.Size {
      BoundCommandsInclude(p);
    }
  }

  lemma BoundCommandsExclude(p: GP.GuiProtocol)
    requires p in BoundCommands
    ensures p != GP.MapContent && p != GP.Size
  {
  }

  lemma BoundCommandsInclude(p: GP.GuiProtocol)
    requires p != GP.MapContent && p != GP.Size
    ensures p in BoundCommands
  {
    assert p == BoundCommands[GP.CastGuiProtocol(p) - if GP.CastGuiProtocol(p) > 2 then 1 else 0];
  }

  /** Every code the client can be sent finds a bound handler, except "mct". */
  lemma EveryCodeButMctHandled(code: string)
    ensures GP.FromCode(code) in BoundHandlers() <==> code != "mct"
  {
    BoundHandlersCover(GP.FromCode(code));
    if GP.FromCode(code) == GP.MapContent {
      assert code == [code[0], code[1], code[2]];
    }
  }

  /** What the tile content handler needs of the game state: a map holding the tile it names. */
  ghost predicate TileWritable(params: string, gs: GameState)
    reads gs, gs.gameMap
  {
    Tile(params).Some? ==>
      gs.gameMap != null && 0 <= Tile(params).value.0 < gs.gameMap.width && 0 <= Tile(params).value.1 < gs.gameMap.height
  }

  /** A line the bound handler of cmd processes without reading an unset variable or writing a tile off the map. */
  ghost predicate Admissible(cmd: GP.GuiProtocol, params: string, gs: GameState)
    reads gs, gs.gameMap
  {
    Calls(cmd, params, gs.frequency).Some? && (cmd == GP.TileContent ==> TileWritable(params, gs))
  }

  /** The counts of the reads done so far; the kinds not read yet are still 0. */
  function PartialCounts(read: seq<Slot>): (s: Stock)
    requires |read| <= ResourceQuantity
    ensures |read| == ResourceQuantity ==> s == CountsOf(read)
  {
    seq(ResourceQuantity, k requires 0 <= k < ResourceQuantity => if k < |read| then SizeVal(read[k]) else 0)
  }

  lemma PartialCountsStep(read: seq<Slot>, slot: Slot)
    requires |read| < ResourceQuantity
    ensures AddTo(PartialCounts(read), FromIndex(|read|), SizeVal(slot)) == PartialCounts(read + [slot])
  {
    var a := AddTo(PartialCounts(read), FromIndex(|read|), SizeVal(slot));
    var b := PartialCounts(read + [slot]);
    forall k | 0 <= k < ResourceQuantity
      ensures a[k] == b[k]
    {
      assert Quantity(a, FromIndex(k)) == a[k];
    }
  }

  /** One count read: the stream either moves on or has failed, and then so has the whole run. */
  lemma CountStep(s0: string, n: nat, st: Option<string>, before: seq<Slot>, read: seq<Slot>)
    requires Pending(s0, n, st, before + read) && |before + read| < n
    ensures Next(st).1.Read? ==> Pending(s0, n, Next(st).0, before + (read + [Next(st).1]))
    ensures !Next(st).1.Read? ==> Reads(s0, n).1 == None
  {
    PendingStep(s0, n, st, before + read);
    assert before + read + [Next(st).1] == before + (read + [Next(st).1]);
  }

  /**
   * The loop handleTileContent and handlePlayerInventory share: seven
   * `stream >> count` added to an empty container, stopping at the first
   * read that fails.
   */
  method ReadCounts(ghost s0: string, ghost n: nat, st0: Option<string>, ghost before: seq<Slot>)
      returns (st: Option<string>, counts: Stock, ghost read: seq<Slot>)
    requires Pending(s0, n, st0, before) && |before| + ResourceQuantity == n
    ensures st.Some? ==> Reads(s0, n) == (before + read, st) && |read| == ResourceQuantity && counts == CountsOf(read)
    ensures st.None? ==> Reads(s0, n).1 == None
  {
    st, counts, read := st0, Empty(), [];
    assert before + [] == before;
    assert counts == PartialCounts(read);
    var i := 0;
    while i < ResourceQuantity
      invariant 0 <= i <= ResourceQuantity && |read| == i
      invariant Pending(s0, n, st, before + read)
      invariant counts == PartialCounts(read)
    {
      CountStep(s0, n, st, before, read);
      var r := Next(st);
      if !r.1.Read? {
        st := None;
        return;
      }
      PartialCountsStep(read, r.1);
      st, read := r.0, read + [r.1];
      counts := AddTo(counts, FromIndex(i), SizeVal(r.1));
      i := i + 1;
    }
    PendingDone(s0, n, st, before + read);
  }

  /** What a handler leaves behind: its renderer calls, and the game state it changes. */
  ghost predicate Outcome(cmd: GP.GuiProtocol, params: string, oldCalls: seq<RendererCall>, oldFrequency: nat,
                          calls: seq<RendererCall>, gs: GameState)
    reads gs
    requires Calls(cmd, params, oldFrequency).Some?
  {
    calls == oldCalls + Calls(cmd, params, oldFrequency).value && gs.frequency == oldFrequency
  }

  class Protocol {
    const gameState: GameState
    const debug: bool
    var handlers: map<GP.GuiProtocol, bool>
    var calls: seq<RendererCall>
    var authenticated: bool

    /** Protocol(renderer, gameState, debug): not yet authenticated, initHandlers run twice. */
    constructor (gameState: GameState, debug: bool)
      ensures this.gameState == gameState && this.debug == debug
      ensures handlers == BoundHandlers() && calls == [] && !authenticated
    {
      this.gameState, this.debug := gameState, debug;
      handlers, calls, authenticated := map[], [], false;
      new;
      InitHandlers();
      InitHandlers();
    }

    /** initHandlers: the table is replaced by the bound handlers, however often it runs. */
    method InitHandlers()
      modifies this`handlers
      ensures handlers == BoundHandlers()
    {
      handlers := BoundHandlers();
    }

    /** The state after the bound handler of cmd processed params. */
    twostate predicate Handled(cmd: GP.GuiProtocol, params: string)
      reads this, gameState, gameState.gameMap
      requires old(Calls(cmd, params, gameState.frequency)).Some?
    {
      Outcome(cmd, params, old(calls), old(gameState.frequency), calls, gameState) &&
      gameState.eggs == old(gameState.eggs) && gameState.players == old(gameState.players) &&
      gameState.teams == old(gameState.teams) + (if cmd == GP.TeamName then [WordOrEmpty(params)] else []) &&
      (cmd == GP.MapSize ==>
        gameState.gameMap != null && fresh(gameState.gameMap) &&
        (gameState.gameMap.width, gameState.gameMap.height) == MapDims(params) &&
        gameState.gameMap.tiles == EmptyGrid(MapDims(params).0, MapDims(params).1)) &&
      (cmd != GP.MapSize ==> gameState.gameMap == old(gameState.gameMap)) &&
      (cmd != GP.MapSize && gameState.gameMap != null ==>
        gameState.gameMap.tiles == if cmd == GP.TileContent then TilesAfter(params, old(gameState.gameMap.tiles)) else old(gameState.gameMap.tiles))
    }

    /** The bound handler of cmd. */
    method Handle(cmd: GP.GuiProtocol, params: string)
      requires gameState.Valid() && Admissible(cmd, params, gameState)
      modifies this`calls, gameState, gameState.gameMap
      ensures gameState.Valid()
      ensures Handled(cmd, params)
    {
      match cmd {
        case MapSize => HandleMapSize(params);
        case TileContent => HandleTileContent(params);
        case TeamName => HandleTeamNames(params);
        case PlayerInventory => HandlePlayerInventory(params);
        case IncantationStart => HandleIncantationStart(params);
        case TimeUnitRequest => HandleTimeUnit(params);
        case TimeUnitModification => HandleTimeUnit(params);
        case _ => HandleRendererOnly(cmd, params);
      }
    }

    /** The handlers that only pass what they read on to the renderer. */
    method HandleRendererOnly(cmd: GP.GuiProtocol, params: string)
      requires gameState.Valid() && Calls(cmd, params, gameState.frequency).Some?
      requires !(cmd in {GP.MapSize, GP.TileContent, GP.TeamName, GP.PlayerInventory, GP.IncantationStart,
                         GP.TimeUnitRequest, GP.TimeUnitModification})
      modifies this`calls
      ensures Handled(cmd, params)
    {
      calls := calls + Calls(cmd, params, gameState.frequency).value;
    }

    /**
     * The message callback: `_handlers[cmd](params)` inside a try. A code
     * with no bound handler gets an empty one inserted, whose call throws
     * std::bad_function_call; the callback catches it and only logs it.
     */
    method Receive(command: string, params: string)
      requires gameState.Valid()
      requires var cmd := GP.FromCode(command); cmd in handlers && handlers[cmd] ==> Admissible(cmd, params, gameState)
      modifies this`handlers, this`calls, gameState, gameState.gameMap
      ensures gameState.Valid()
      ensures var cmd := GP.FromCode(command);
        if cmd in old(handlers) && old(handlers)[cmd] then
          handlers == old(handlers) && old(Calls(cmd, params, gameState.frequency)).Some? && Handled(cmd, params)
        else
          handlers == old(handlers)[cmd := false] && calls == old(calls) && unchanged(gameState) &&
          (gameState.gameMap != null ==> unchanged(gameState.gameMap))
    {
      var cmd := GP.FromCode(command);
      if cmd in handlers && handlers[cmd] {
        Handle(cmd, params);
      } else {
        handlers := handlers[cmd := false];
      }
    }

    /**
     * onServerMessage: the handler found by find() is called; an empty one,
     * inserted by the callback, throws std::bad_function_call out of this
     * method; an absent one is only logged.
     */
    method OnServerMessage(command: string, params: string) returns (threw: bool)
      requires gameState.Valid()
      requires var cmd := GP.FromCode(command); cmd in handlers && handlers[cmd] ==> Admissible(cmd, params, gameState)
      modifies this`calls, gameState, gameState.gameMap
      ensures gameState.Valid()
      ensures var cmd := GP.FromCode(command); threw <==> cmd in handlers && !handlers[cmd]
      ensures var cmd := GP.FromCode(command);
        if cmd in handlers && handlers[cmd] then old(Calls(cmd, params, gameState.frequency)).Some? && Handled(cmd, params)
        else calls == old(calls) && unchanged(gameState) && (gameState.gameMap != null ==> unchanged(gameState.gameMap))
    {
      var cmd := GP.FromCode(command);
      threw := false;
      if cmd in handlers {
        if handlers[cmd] {
          Handle(cmd, params);
        } else {
          threw := true;
        }
      }
    }

    /** handleMapSize: a fresh map of the size read, then the renderer's init. */
    method HandleMapSize(params: string)
      requires Usable(Reads(params, 2).0)
      modifies this`calls, gameState`gameMap
      ensures gameState.Valid() && gameState.gameMap != null && fresh(gameState.gameMap)
      ensures (gameState.gameMap.width, gameState.gameMap.height) == MapDims(params)
      ensures gameState.gameMap.tiles == EmptyGrid(MapDims(params).0, MapDims(params).1)
      ensures calls == old(calls) + [Init]
    {
      var st: Option<string> := Some(params);
      ghost var sl: seq<Slot> := [];
      PendingStart(params, 2);
      PendingStep(params, 2, st, sl);
      var r := Next(st);
      var width := r.1;
      st, sl := r.0, sl + [width];
      PendingStep(params, 2, st, sl);
      r := Next(st);
      var height := r.1;
      st, sl := r.0, sl + [height];
      PendingDone(params, 2, st, sl);
      gameState.InitMap(SizeVal(width), SizeVal(height));
      calls := calls + [Init];
    }

    /** handleTileContent: the tile read replaces the one at (x, y); a failed read leaves the map as it was. */
    method HandleTileContent(params: string)
      requires gameState.Valid() && TileWritable(params, gameState)
      modifies gameState.gameMap
      ensures gameState.Valid()
      ensures gameState.gameMap != null ==> gameState.gameMap.tiles == TilesAfter(params, old(gameState.gameMap.tiles))
    {
      var st: Option<string> := Some(params);
      ghost var sl: seq<Slot> := [];
      PendingStart(params, 2 + ResourceQuantity);
      PendingStep(params, 2 + ResourceQuantity, st, sl);
      var r := Next(st);
      var x := r.1;
      st, sl := r.0, sl + [x];
      PendingStep(params, 2 + ResourceQuantity, st, sl);
      r := Next(st);
      var y := r.1;
      st, sl := r.0, sl + [y];
      var tile;
      ghost var read;
      st, tile, read := ReadCounts(params, 2 + ResourceQuantity, st, sl);
      if st.None? {
        return;
      }
      assert (sl + read)[2..] == read;
      gameState.UpdateTile(Val(x), Val(y), tile);
    }

    /** handleTeamNames: the first word of the parameters (or "") joins the team list. */
    method HandleTeamNames(params: string)
      modifies gameState`teams
      ensures gameState.teams == old(gameState.teams) + [WordOrEmpty(params)]
    {
      gameState.AddTeam(WordOrEmpty(params));
    }

    /** handlePlayerInventory: the inventory read goes to the renderer; a failed read sends nothing. */
    method HandlePlayerInventory(params: string)
      modifies this`calls
      ensures calls == old(calls) + if InventoryCall(params).Some? then [InventoryCall(params).value] else []
    {
      var trueParams := RemoveSharp(params);
      var st: Option<string> := Some(trueParams);
      ghost var sl: seq<Slot> := [];
      PendingStart(trueParams, 3 + ResourceQuantity);
      PendingStep(trueParams, 3 + ResourceQuantity, st, sl);
      var r := Next(st);
      var playerId := r.1;
      st, sl := r.0, sl + [playerId];
      PendingStep(trueParams, 3 + ResourceQuantity, st, sl);
      r := Next(st);
      var x := r.1;
      st, sl := r.0, sl + [x];
      PendingStep(trueParams, 3 + ResourceQuantity, st, sl);
      r := Next(st);
      var y := r.1;
      st, sl := r.0, sl + [y];
      var inventory;
      ghost var read;
      st, inventory, read := ReadCounts(trueParams, 3 + ResourceQuantity, st, sl);
      if st.None? {
        InventoryOf(params, Reads(trueParams, 3 + ResourceQuantity).0, st);
        return;
      }
      assert (sl + read)[3..] == read && (sl + read)[0] == playerId;
      InventoryOf(params, sl + read, st);
      calls := calls + [UpdatePlayerInventory(Val(playerId), inventory)];
    }

    /** handleIncantationStart: x, y and level, then every id that follows, in order. */
    method HandleIncantationStart(params: string)
      requires IncantationStartCall(params).Some?
      modifies this`calls
      ensures calls == old(calls) + [IncantationStartCall(params).value]
    {
      var trueParams := RemoveSharp(params);
      var st: Option<string> := Some(trueParams);
      ghost var sl: seq<Slot> := [];
      PendingStart(trueParams, 3);
      PendingStep(trueParams, 3, st, sl);
      var r := Next(st);
      var x := r.1;
      st, sl := r.0, sl + [x];
      PendingStep(trueParams, 3, st, sl);
      r := Next(st);
      var y := r.1;
      st, sl := r.0, sl + [y];
      PendingStep(trueParams, 3, st, sl);
      r := Next(st);
      var level := r.1;
      st, sl := r.0, sl + [level];
      PendingDone(trueParams, 3, st, sl);
      var playerIds: seq<int> := [];
      if st.Some? {
        playerIds := ReadIds(st.value);
      }
      calls := calls + [StartIncantation(SizeVal(x), SizeVal(y), SizeVal(level), playerIds)];
    }

    /** handleTimeUnit: the renderer is told the time unit only when it differs from the game state's frequency. */
    method HandleTimeUnit(params: string)
      requires TimeUnitOf(params).Some?
      modifies this`calls
      ensures var u := TimeUnitOf(params).value;
        calls == old(calls) + if u != gameState.frequency then [SetFrequency(u)] else []
    {
      var r := Next(Some(params));
      ReadsFirst(params, 1);
      var timeUnit := SizeVal(r.1);
      if gameState.GetFrequency() != timeUnit {
        calls := calls + [SetFrequency(timeUnit)];
      }
    }
  }
}
