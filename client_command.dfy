/**
 * The player command dispatcher: level bounds, the elevation requirement
 * table, command durations, sound directions, and the tokenising and
 * queueing of one input line.
 */
module ClientCommand {
  import opened Wrappers
  import opened Text
  import opened Resource
  import opened ServerWorld

  const MinLevel: nat := 1
  const MaxLevel: nat := 8

  /** elevation_t: players and stones needed to rise from one level to the next. */
  datatype Elevation = Elevation(players: nat, linemate: nat, deraumere: nat, sibur: nat,
                                 mendiane: nat, phiras: nat, thystame: nat)

  /** elevationRequirements, row level - 1 for levels 1 to 7. */
  const ElevationRequirements: seq<Elevation> := [
    Elevation(1, 1, 0, 0, 0, 0, 0), Elevation(2, 1, 1, 1, 0, 0, 0),
    Elevation(2, 2, 0, 1, 0, 2, 0), Elevation(4, 1, 1, 2, 0, 1, 0),
    Elevation(4, 1, 2, 1, 3, 0, 0), Elevation(6, 1, 2, 3, 0, 1, 0),
    Elevation(6, 2, 2, 2, 2, 2, 1)]

  /** The requirements to rise from `level` to `level + 1`. */
  function Row(level: nat): Elevation
    requires MinLevel <= level < MaxLevel
  {
    ElevationRequirements[level - 1]
  }

  /** The stones of kind r a row asks for; food is never required. */
  function Required(e: Elevation, r: Resource): nat
  {
    match r
    case Food => 0
    case Linemate => e.linemate
    case Deraumere => e.deraumere
    case Sibur => e.sibur
    case Mendiane => e.mendiane
    case Phiras => e.phiras
    case Thystame => e.thystame
  }

  /** The table has one row per level below the maximum, and its player counts never decrease. */
  lemma ElevationTableShape()
    ensures |ElevationRequirements| == MaxLevel - MinLevel
    ensures forall l :: MinLevel <= l < MaxLevel ==> Row(l).players >= 1
    ensures forall l, m :: MinLevel <= l <= m < MaxLevel ==> Row(l).players <= Row(m).players
    ensures ElevationRequirements[0] == Elevation(1, 1, 0, 0, 0, 0, 0)
    ensures ElevationRequirements[6] == Elevation(6, 2, 2, 2, 2, 2, 1)
  {
  }

  /** timeLimit: each command's duration in time units. */
  datatype TimeLimit = Forward | Right | Left | Look | Inventory | Broadcast
                     | ConnectNbr | Fork | Eject | Take | Set | Incantation

  function Duration(t: TimeLimit): (d: nat)
    ensures d == 0 <==> t == ConnectNbr
  {
    match t
    case Forward => 7 case Right => 7 case Left => 7 case Look => 7
    case Inventory => 1 case Broadcast => 7 case ConnectNbr => 0 case Fork => 42
    case Eject => 7 case Take => 7 case Set => 7 case Incantation => 300
  }

  /** SoundDirection: 0 for the same tile, then counter-clockwise from the front. */
  datatype SoundDirection = SamePosition | North | NorthWest | West | SouthWest
                          | South | SouthEast | East | NorthEast

  function SoundCode(d: SoundDirection): (k: nat)
    ensures k <= 8 && (k == 0 <==> d == SamePosition)
  {
    match d
    case SamePosition => 0 case North => 1 case NorthWest => 2 case West => 3
    case SouthWest => 4 case South => 5 case SouthEast => 6 case East => 7 case NorthEast => 8
  }

  /** messageToGUI: the text goes to every member of every team named GRAPHIC, in order. */
  method MessageToGui(h: CommandHandler, text: string)
    modifies h`sent
    ensures h.sent == old(h.sent) + ToEach(GuiSockets(h.teams, h.players), text)
  {
    h.sent := h.sent + ToEach(GuiSockets(h.teams, h.players), text);
  }

  /** sendMessage on one player's connection. */
  method SendTo(h: CommandHandler, p: ServerPlayer, text: string)
    modifies h`sent
    ensures h.sent == old(h.sent) + [Sent(p.socket, text)]
  {
    h.sent := h.sent + [Sent(p.socket, text)];
  }

  /** Whether _waitCommand lets the command go on: a zero-length wait always does, any other only for a player not interrupted. */
  predicate WaitCompletes(p: ServerPlayer, limit: TimeLimit, ejectedMeanwhile: bool)
  {
    Duration(limit) == 0 || (!p.interrupted && !ejectedMeanwhile)
  }

  /**
   * The player after _waitCommand: interrupted once ejected during the
   * wait, and, when the wait is cut short, no longer praying nor in action.
   */
  function Waited(p: ServerPlayer, limit: TimeLimit, ejectedMeanwhile: bool): (q: ServerPlayer)
    ensures q.interrupted == (p.interrupted || ejectedMeanwhile)
    ensures WaitCompletes(p, limit, ejectedMeanwhile) ==> q.praying == p.praying && q.inAction == p.inAction
    ensures !WaitCompletes(p, limit, ejectedMeanwhile) ==> !q.praying && !q.inAction
    ensures q == p.(interrupted := q.interrupted, praying := q.praying, inAction := q.inAction)
  {
    var r := p.(interrupted := p.interrupted || ejectedMeanwhile);
    if WaitCompletes(p, limit, ejectedMeanwhile) then r else r.(praying := false, inAction := false)
  }

  /**
   * _waitCommand on player i: the command's duration elapses
   * unless the player is (or becomes, `ejectedMeanwhile`) interrupted; an
   * interrupted wait stops the prayer and the action. A zero-length wait
   * never looks at the flag.
   */
  method WaitCommand(h: CommandHandler, i: nat, limit: TimeLimit, ejectedMeanwhile: bool) returns (completed: bool)
    requires i < |h.players|
    modifies h`players
    ensures completed == WaitCompletes(old(h.players[i]), limit, ejectedMeanwhile)
    ensures h.players == old(h.players)[i := Waited(old(h.players[i]), limit, ejectedMeanwhile)]
  {
    var p := h.players[i];
    if ejectedMeanwhile {
      p := p.(interrupted := true);
    }
    completed := true;
    if Duration(limit) > 0 && p.interrupted {
      p := p.(praying := false, inAction := false);
      completed := false;
    }
    h.players := h.players[i := p];
  }

  /** The command names initCommandMap registers. */
  const CommandNames: set<string> := {"Forward", "Right", "Left", "Look", "Inventory", "Broadcast",
                                      "Connect_nbr", "Fork", "Eject", "Take", "Set", "Incantation"}

  /** initCommandMap. */
  method InitCommandMap(h: CommandHandler)
    modifies h`commandMap
    ensures h.commandMap == CommandNames && |h.commandMap| == 12
  {
    h.commandMap := CommandNames;
  }

  /**
   * The command is the text before the first space (all of it when there is
   * none, a trailing '\n' included); the arguments are the text after it
   * with one trailing '\n' dropped.
   */
  function SplitInput(input: string): (r: (string, string))
  {
    match Find(input, ' ')
    case None => (input, "")
    case Some(k) => (input[..k], DropTrailingNewline(input[k + 1..]))
  }

  /** Splitting a name, a space and an argument line gives back the name and the argument. */
  lemma SplitInputRoundTrip(cmd: string, arg: string)
    requires ' ' !in cmd
    ensures SplitInput(cmd + " " + arg + "\n") == (cmd, arg)
    ensures SplitInput(cmd + " " + arg) == (cmd, DropTrailingNewline(arg))
  {
    var s := cmd + " " + arg + "\n";
    FindAfter(cmd, arg + "\n");
    assert s == cmd + " " + (arg + "\n");
    assert s[..|cmd|] == cmd && s[|cmd| + 1..] == arg + "\n";
    FindAfter(cmd, arg);
    var t := cmd + " " + arg;
    assert t[..|cmd|] == cmd && t[|cmd| + 1..] == arg;
  }

  /** A line without a space is all command, including its newline. */
  lemma SplitInputNoSpace(input: string)
    requires ' ' !in input
    ensures SplitInput(input) == (input, "")
  {
  }

  lemma FindAfter(cmd: string, rest: string)
    requires ' ' !in cmd
    ensures Find(cmd + " " + rest, ' ') == Some(|cmd|)
  {
    assert cmd + " " + rest == cmd + (" " + rest);
    FindSkips(cmd, " " + rest, ' ');
  }

  /** What processClientInput does with a line: start the command, or refuse it. */
  datatype Dispatch = Started(cmd: string, args: string) | Refused | Ignored

  /**
   * processClientInput for player i: a known command is handed
   * to the execution step with its arguments. An unknown one, when the
   * player is idle, consumes the oldest queued line and answers "ko\n";
   * while the player is busy it is ignored. Popping an empty queue is
   * undefined in the source, so an idle player's queue must hold the line.
   */
  method ProcessClientInput(h: CommandHandler, i: nat, input: string) returns (d: Dispatch)
    requires i < |h.players|
    requires h.commandMap == {} || h.commandMap == CommandNames
    requires SplitInput(input).0 !in CommandNames && !h.players[i].inAction ==> h.players[i].queue != []
    modifies h`commandMap, h`sent, h`players
    ensures h.commandMap == CommandNames
    ensures var (cmd, args) := SplitInput(input);
      var p := old(h.players[i]);
      if cmd in CommandNames then
        d == Started(cmd, args) && h.sent == old(h.sent) && h.players == old(h.players)
      else if !p.inAction then
        d == Refused && h.players == old(h.players)[i := p.(queue := p.queue[1..])]
        && h.sent == old(h.sent) + [Sent(p.socket, "ko\n")]
      else
        d == Ignored && h.players == old(h.players) && h.sent == old(h.sent)
  {
    if h.commandMap == {} {
      InitCommandMap(h);
    }
    var (cmd, args) := SplitInput(input);
    if cmd in h.commandMap {
      return Started(cmd, args);
    }
    var p := h.players[i];
    if !p.inAction {
      h.players := h.players[i := p.(queue := p.queue[1..])];
      SendTo(h, p, "ko\n");
      return Refused;
    }
    return Ignored;
  }

  /**
   * The usual end of a command for player i: the player leaves its action,
   * is told "ok\n", and the graphical clients get guiText.
   */
  method Acknowledge(h: CommandHandler, i: nat, guiText: string)
    requires i < |h.players|
    modifies h`players, h`sent
    ensures h.players == old(h.players)[i := old(h.players[i]).(inAction := false)]
    ensures h.sent == old(h.sent) + [Sent(old(h.players[i]).socket, "ok\n")] + ToEach(GuiSockets(h.teams, old(h.players)), guiText)
  {
    var p := h.players[i];
    h.players := h.players[i := p.(inAction := false)];
    GuiSocketsUpdate(h.teams, old(h.players), i, p.(inAction := false));
    SendTo(h, p, "ok\n");
    MessageToGui(h, guiText);
  }

  /**
   * The first half of _executeCommand's thread for player i:
   * nothing happens while the player is busy or has no queued line;
   * otherwise the oldest line is consumed and the player is marked busy
   * while the handler runs.
   */
  method BeginCommand(h: CommandHandler, i: nat) returns (run: bool)
    requires i < |h.players|
    modifies h`players
    ensures var p := old(h.players[i]);
      run <==> !p.inAction && p.queue != []
    ensures var p := old(h.players[i]);
      h.players == if run then old(h.players)[i := p.(queue := p.queue[1..], inAction := true)] else old(h.players)
  {
    var p := h.players[i];
    if p.inAction || p.queue == [] {
      return false;
    }
    h.players := h.players[i := p.(queue := p.queue[1..], inAction := true)];
    return true;
  }

  /** The second half: once the handler returns, the player is idle again. */
  method EndCommand(h: CommandHandler, i: nat)
    requires i < |h.players|
    modifies h`players
    ensures h.players == old(h.players)[i := old(h.players[i]).(inAction := false)]
  {
    h.players := h.players[i := h.players[i].(inAction := false)];
  }
}
