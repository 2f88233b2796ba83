# Zappy — a Dafny model

Zappy is a networked game. Teams of players live on a toroidal map of tiles. Each tile holds food and six
kinds of stone (linemate, deraumere, sibur, mendiane, phiras, thystame). Players eat food to stay alive.
They gather stones and raise their level through incantations with other players of the same level. A
team wins when enough of its players reach the top level. The repository has three programs:

- the **server**. It keeps the world (`Map`, `Player`, `Egg`, teams, the clock) and answers each client's
  commands: `Forward`, `Right`, `Left`, `Look`, `Inventory`, `Broadcast`, `Connect_nbr`, `Fork`, `Eject`,
  `Take`, `Set`, `Incantation`. It also speaks the graphical protocol to GUI clients (`msz`, `bct`, `mct`,
  `tna`, `ppo`, `plv`, `pin`, `sgt`, `sst` and the events `pnw`, `pex`, `pbc`, `pic`, `pie`, `pdr`, `pgt`,
  `pdi`, `enw`, `ebo`, `edi`, `seg`);
- the **AI client**. Its planner runs one state at a time. This model covers the resource-collection
  state and the reproduction (fork) state;
- the **GUI client**. It parses the graphical protocol into a game state and a map renderer, and it
  drives its menus from the keyboard.

The model follows the programs' own structure. Each command handler, protocol parser and menu is a
Dafny module. Objects that the programs update in place are Dafny classes: the game, its map, the
command queue, the GUI game state, the renderer's player and egg lists, and the menus. Pure
computations are functions, with lemmas that relate them to an independent definition. The
server-to-GUI texts are proved to read back through the client's parsers (`ProtocolRoundTrip`). Where
the code does something its authors evidently did not intend, the handler models the code as written.
The corrected behaviour is defined next to it, with the intended property proved. Both are listed
under "## Findings". Four members are the exception, because the code as written has undefined
behaviour at the edge in question. `GuiCommand.BctReply`, `GuiCommand.HandleBct` and
`GuiCommand.BctReplyRejected` use the corrected bound x < width and y < height, where the code's bound
lets x == width or y == height read past the grid. `GameMenu.GameMenu.RemovePlayer` tests for an empty
list before it takes the remainder, where the code takes `% 0` first.

C++ integers are unbounded here. The module `CppInt` writes out `size_t` wrap-around, the saturation of
the server's `stream >> int` reads and C++ truncating remainder. The GUI client's stream reads are
unbounded, as "## Left out" says under `ProtocolStream.Next`.

## Model

| member | source | states |
|---|---|---|
| Orientation.Index | Data/Game/Orientation.hpp:19-24 | the enumerators are numbered 0..3 clockwise: NORTH, EAST, SOUTH, WEST |
| Orientation.Add | Data/Game/Orientation.hpp:26-42 | `o + k` (and `+=`) lands on the direction whose index is (index(o) + k) mod 4 |
| Orientation.Sub | Data/Game/Orientation.hpp:52-68 | `o - k` (and `-=`) lands on the direction whose index is (index(o) - k) mod 4 |
| Orientation.Opposite | Data/Game/Orientation.hpp:44-50 | unary minus gives a different direction, two quarter turns away |
| Orientation.Next | Data/Game/Orientation.hpp:70-76 | prefix `++` is one quarter turn clockwise, i.e. `o + 1` |
| Orientation.Prev | Data/Game/Orientation.hpp:87-93 | prefix `--` is one quarter turn counter-clockwise, i.e. `o - 1` |
| Orientation.PostIncrement | Data/Game/Orientation.hpp:78-85 | postfix `++` yields the value before the turn and stores the turned value |
| Orientation.PostDecrement | Data/Game/Orientation.hpp:95-102 | postfix `--` yields the value before the turn and stores the turned value |
| Orientation.AddSubInverse | Data/Game/Orientation.hpp:26-68 | adding then subtracting the same offset (either order) returns to the start |
| Orientation.AddCompose | Data/Game/Orientation.hpp:26-42 | offsets compose additively and only matter modulo 4 |
| Orientation.TurnsCycle | Data/Game/Orientation.hpp:44-102 | the opposite of the opposite is the start; opposite is `+2` and `-2`; four `++` are the identity; `++` and `--` undo each other |
| Orientation.ShortName | Data/Game/Orientation.hpp:104-109 | orientationStrings holds a one-letter name per direction |
| Orientation.FullName | Data/Game/Orientation.hpp:111-116 | orientationFullStrings holds the full name per direction |
| Orientation.NamesAgree | Data/Game/Orientation.hpp:104-116 | each abbreviation is the initial of the full name, and each table names every direction exactly once |
| Resource.CastResource | Data/Game/Resource.hpp:20-34 | castResource yields the underlying value, FOOD = 0 ... THYSTAME = 6, below RESOURCE_QUANTITY = 7 |
| Resource.CastResourceInjective | Data/Game/Resource.hpp:20-29 | distinct kinds have distinct underlying values |
| Resource.GetName | Data/Game/Resource.hpp:49-60 | getName(r) is entry castResource(r) of the names table |
| Resource.GetResource | Data/Game/Resource.hpp:78-84 | getResource finds a kind exactly for the strings of the names table, and that kind's name is the string |
| Resource.NameRoundTrip | Data/Game/Resource.hpp:62-84 | getResource(getName(r)) == r for every kind |
| Resource.NameAtIndex | Data/Game/Resource.hpp:52-84 | the k-th name of the table names the kind with underlying value k |
| Resource.CoeffNonIncreasing | Data/Game/Resource.hpp:36-47 | coeff never increases from FOOD to THYSTAME |
| ResourceContainer.Empty | Data/Game/ResourceContainer.hpp:38-41 | a cleared stock holds zero of every kind |
| ResourceContainer.AddTo | Data/Game/ResourceContainer.hpp:43-49 | adding q of kind r raises r by q and leaves every other kind unchanged |
| ResourceContainer.RemoveFrom | Data/Game/ResourceContainer.hpp:58-64 | removing q of kind r (at most what is held) lowers r by q and leaves every other kind unchanged |
| ResourceContainer.Extensionality | Data/Game/ResourceContainer.hpp:79-82 | the seven slots are the whole state: equal per-kind quantities mean equal containers |
| ResourceContainer.AddRemoveInverse | Data/Game/ResourceContainer.hpp:43-64 | remove undoes add, and add undoes a remove that was allowed |
| ResourceContainer.TotalAdd | Data/Game/ResourceContainer.hpp:43-49 | adding q units of one kind adds q to the total of all kinds |
| ResourceContainer.TotalRemove | Data/Game/ResourceContainer.hpp:58-64 | removing q units of one kind takes q from the total of all kinds |
| ResourceContainer.QuantityWithinTotal | Data/Game/ResourceContainer.hpp:66-82 | one kind's quantity never exceeds the sum over all slots |
| ResourceContainer.ResourceContainer.constructor | Data/Game/ResourceContainer.hpp:21-24 | construction clears the container: every quantity is 0 |
| ResourceContainer.ResourceContainer.Clear | Data/Game/ResourceContainer.hpp:38-41 | clear sets every quantity to zero |
| ResourceContainer.ResourceContainer.AddResource | Data/Game/ResourceContainer.hpp:43-49 | addResource adds the quantity to that kind only |
| ResourceContainer.ResourceContainer.AddSingleResource | Data/Game/ResourceContainer.hpp:51-56 | addSingleResource adds one unit of that kind only |
| ResourceContainer.ResourceContainer.RemoveResource | Data/Game/ResourceContainer.hpp:58-64 | removeResource subtracts the quantity from that kind only |
| ResourceContainer.ResourceContainer.GetResourceQuantity | Data/Game/ResourceContainer.hpp:66-72 | getResourceQuantity reads the one slot that add and remove change, bounded by the container's total |
| GameMap.EmptyGrid | Data/Game/Map.hpp:97-112 | `_init` builds width columns of height empty tiles |
| GameMap.WithTile | Data/Game/Map.hpp:87-94 | replacing tile (x, y) changes that tile only and keeps the grid's shape |
| GameMap.WithTileSame | Data/Game/Map.hpp:87-94 | writing back a tile's own content leaves the grid unchanged |
| GameMap.WithTileTwice | Data/Game/Map.hpp:87-94 | of two writes to the same tile the later one wins |
| GameMap.GridTotalUpdate | Data/Game/Map.hpp:66-72 | replacing one tile changes a kind's map total by exactly that tile's difference |
| GameMap.GridTotalEmpty | Data/Game/Map.hpp:66-85 | an empty grid holds zero units of every kind |
| GameMap.Map.constructor | Data/Game/Map.hpp:22-29 | a new map has the given width and height and every tile empty |
| GameMap.Map.SetTile | Data/Game/Map.hpp:87-94 | setTile replaces exactly tile (x, y), after which getTile(x, y) returns it, and moves each kind's total by that tile's difference |
| GameMap.Map.ClearTile | Data/Game/Map.hpp:74-80 | clearTile empties tile (x, y) and leaves every other tile unchanged |
| GameMap.Map.Clear | Data/Game/Map.hpp:82-85 | clear empties every tile, so getResourceQuantity is 0 for every kind |
| Eggs.Egg.constructor | Data/Game/Egg.hpp:30-40 | the four-argument constructor stores id, fatherId, x and y |
| Eggs.Egg.WithoutFather | Data/Game/Egg.hpp:42-51 | the three-argument constructor stores id, x and y with fatherId = -1 |
| Eggs.Egg.SetFatherId | Data/Game/Egg.hpp:62-74 | after setFatherId, getFatherId returns the new value and the id is unchanged |
| Players.DirectionVector | Server/Game/Commands/LookCommand.cpp:18-41 | a step is a unit vector: North is y - 1, East x + 1, South y + 1, West x - 1 |
| Players.DirectionOpposite | Data/Game/Orientation.hpp:44-50 | opposite orientations step in opposite directions |
| Players.ForwardPosition | Data/Game/Player.hpp:74-80 | one tile forward stays on the w x h map and wraps exactly at the edges |
| Players.Player.constructor | Data/Game/Player.hpp:27-42 | a player stores id, position, orientation and level, not praying, with an empty inventory |
| Players.Player.Default | Data/Game/Player.hpp:36-42 | the defaulted arguments give orientation NORTH and level 1 |
| Players.Player.Pray | Data/Game/Player.hpp:46-57 | pray sets the flag isPraying reports |
| Players.Player.StopPraying | Data/Game/Player.hpp:59-62 | stopPraying clears the flag isPraying reports |
| Players.Player.LookLeft | Data/Game/Player.hpp:64-67 | lookLeft applies `--`: one quarter turn counter-clockwise |
| Players.Player.LookRight | Data/Game/Player.hpp:69-72 | lookRight applies `++`: one quarter turn clockwise |
| Players.Player.StepForward | Data/Game/Player.hpp:74-80 | stepForward moves one tile in the facing direction, wrapped onto the map |
| Players.Player.SetInventory | Data/Game/Player.hpp:91-103 | setInventory replaces what getInventory returns |
| Players.Player.CollectRessource | Data/Game/Player.hpp:105-111 | collectRessource adds the quantity of one kind to the inventory |
| Players.Player.DropRessource | Data/Game/Player.hpp:113-119 | dropRessource removes the quantity of one kind from the inventory |
| ServerWorld.NewServerPlayer | Server/Game/Player/ServerPlayer.hpp:44-55 | a new server player holds 10 food and nothing else, is idle, connected and not praying |
| ClientCommand.ElevationTableShape | Server/Game/Commands/ClientCommand.hpp:33-64 | the table has maxLevel - minLevel = 7 rows; every row needs at least one player and the player counts never decrease; the first row is (1, 1, 0, 0, 0, 0, 0) and the last (6, 2, 2, 2, 2, 2, 1) |
| ClientCommand.Duration | Server/Game/Commands/ClientCommand.hpp:81-94 | timeLimit: every duration is positive except CONNECT_NBR's |
| ClientCommand.SoundCode | Server/Game/Commands/ClientCommand.hpp:102-112 | SoundDirection codes lie in 0..8 and 0 means exactly SAME_POSITION |
| ClientCommand.MessageToGui | Server/Game/Commands/ClientCommand.cpp:11-21 | messageToGUI sends the text once to every member of the teams named GRAPHIC, in team and member order, and to no one else |
| ClientCommand.SendTo | Server/Game/Commands/ClientCommand.cpp:136-139 | a send appends exactly one line for that player's socket to the outbox |
| ClientCommand.Waited | Server/Game/Commands/ClientCommand.cpp:75-94 | after a wait the player is interrupted if it was or was ejected meanwhile; a wait cut short stops the prayer and the action; nothing else about the player changes |
| ClientCommand.WaitCommand | Server/Game/Commands/ClientCommand.cpp:75-94 | _waitCommand completes for a zero-length limit or an uninterrupted player, and otherwise returns false after clearing praying and in-action |
| ClientCommand.InitCommandMap | Server/Game/Commands/ClientCommand.cpp:23-73 | initCommandMap registers exactly the twelve player commands |
| ClientCommand.SplitInputRoundTrip | Server/Game/Commands/ClientCommand.cpp:125-131 | a line "cmd arg\n" splits into cmd and arg; without the newline the argument keeps everything after the first space bar one trailing newline |
| ClientCommand.SplitInputNoSpace | Server/Game/Commands/ClientCommand.cpp:125-128 | a line with no space is all command, with empty arguments |
| ClientCommand.ProcessClientInput | Server/Game/Commands/ClientCommand.cpp:119-141 | the map is initialised lazily; a known command is started with its arguments; an unknown one from an idle player pops one queued line and answers "ko\n"; from a busy player it changes nothing |
| ClientCommand.Acknowledge | Server/Game/Commands/MoveCommand.cpp:17-22 | the usual end of a command: the player leaves its action, gets "ok\n", and every GUI gets the notification |
| ClientCommand.BeginCommand | Server/Game/Commands/ClientCommand.cpp:101-112 | the command runs iff the player is idle and has a queued line; then one line is popped and the player is marked in action, otherwise nothing changes |
| ClientCommand.EndCommand | Server/Game/Commands/ClientCommand.cpp:113-114 | after the handler returns the player is no longer in action |
| MoveCommand.Stepped | Server/Game/Commands/MoveCommand.cpp:15 | stepForward moves the player one wrapped tile in its facing direction and changes nothing else |
| MoveCommand.Turned | Server/Game/Commands/MoveCommand.cpp:30-44 | Right applies lookRight (clockwise) and Left lookLeft (counter-clockwise); nothing else changes |
| MoveCommand.StepBack | Server/Game/Commands/MoveCommand.cpp:10-23 | a step forward, an about-turn and a step forward bring a player back to its tile |
| MoveCommand.TurnsUndo | Server/Game/Commands/MoveCommand.cpp:25-52 | Right then Left (or Left then Right) restores the orientation; four Rights are a full turn |
| MoveCommand.HandleForward | Server/Game/Commands/MoveCommand.cpp:10-23 | after a completed wait the player steps forward, leaves its action, gets "ok\n" and the GUIs get "ppo #id x y o\n" with o in 1..4; an interrupted wait sends nothing and moves nothing |
| MoveCommand.HandleRight | Server/Game/Commands/MoveCommand.cpp:25-38 | after a completed wait the player turns clockwise in place, gets "ok\n" and the GUIs get its ppo line; otherwise nothing is sent |
| MoveCommand.HandleLeft | Server/Game/Commands/MoveCommand.cpp:40-52 | after a completed wait the player turns counter-clockwise in place, gets "ok\n" and the GUIs get its ppo line; otherwise nothing is sent |
| PlayerCommand.ConnectNbrTextReadable | Server/Game/Commands/PlayerCommand.cpp:16-19 | the connect_nbr reply reads back (with `>>`) as the same number, followed by the newline |
| PlayerCommand.HandleConnectNbr | Server/Game/Commands/PlayerCommand.cpp:10-21 | a player-team member is told clientNb minus its team's member count and leaves its action; a GRAPHIC member gets nothing and nothing changes |
| PlayerCommand.AddNewEgg | Server/Game/Commands/PlayerCommand.cpp:33 | addNewEgg appends one egg of the team on the given tile under an id no earlier egg has |
| PlayerCommand.HandleFork | Server/Game/Commands/PlayerCommand.cpp:23-41 | the GUIs hear "pfk #id\n"; for a player team the capacity grows by one, an egg of the team appears on the player's tile, the player leaves its action, the GUIs hear "enw #egg #id x y\n" and the player "ok\n"; for the GRAPHIC team only pfk is sent |
| PlayerCommand.LayEgg | Server/Game/Commands/PlayerCommand.cpp:28-40 | the player-team half of handleFork, in the source's order: allowNewPlayer, addNewEgg, in-action cleared, enw to the GUIs, "ok\n" to the player |
| PlayerCommand.ForkEggFresh | Server/Game/Commands/PlayerCommand.cpp:33 | the egg a fork lays differs from every earlier egg and keeps the ids-below-the-counter invariant |
| PlayerCommand.ForkOpensPlace | Server/Game/Commands/PlayerCommand.cpp:16-31 | after a fork, connect_nbr's answer for the team is one more than before |
| ResourceCommand.InventoryEntries | Server/Game/Commands/ResourceCommand.cpp:17-21 | one entry per kind, in the order of the names table |
| ResourceCommand.NameIsWord | Data/Game/Resource.hpp:52-60 | no resource name contains a comma or a space, so the inventory reply can be split on them |
| ResourceCommand.EntryReadable | Server/Game/Commands/ResourceCommand.cpp:18-21 | entry k starts with the k-th name and continues with a number that reads back as the inventory's count of kind k |
| ResourceCommand.InventoryReadable | Server/Game/Commands/ResourceCommand.cpp:15-23 | the inventory reply is "[...]\n" whose comma-separated parts are exactly the seven "name count" entries in names order, each count reading back as the player's quantity |
| ResourceCommand.WriteInventory | Server/Game/Commands/ResourceCommand.cpp:16-23 | the loop, with its last comma popped, builds exactly the inventory reply |
| ResourceCommand.HandleInventory | Server/Game/Commands/ResourceCommand.cpp:10-26 | after a completed wait the player leaves its action and receives its inventory reply; an interrupted wait sends nothing |
| ResourceCommand.PinAndBctStep | Server/Game/Commands/ResourceCommand.cpp:30-37 | one more player visited by resourceSendGui's loop adds that player's pin and bct replies exactly when it is a GUI |
| ResourceCommand.ResourceSendGui | Server/Game/Commands/ResourceCommand.cpp:28-39 | every GUI, in order, gets handlePin for the player's id and then handleBct for the player's tile |
| ResourceCommand.PinAndBctToAll | Server/Game/Commands/ResourceCommand.cpp:30-38 | resourceSendGui's loop sends each GUI the pin reply then the bct reply |
| ResourceCommand.PinAndBctStepTo | Server/Game/Commands/ResourceCommand.cpp:31-36 | one pass of the loop extends the outbox by that player's pair of replies when it is a GUI |
| ResourceCommand.PinAndBctTo | Server/Game/Commands/ResourceCommand.cpp:33-35 | the loop body for one GUI: the pin reply, then the bct reply |
| ResourceCommand.ReportMove | Server/Game/Commands/ResourceCommand.cpp:62-65 | a successful move ends with "ok\n" to the player, the announcement to the GUIs, then resourceSendGui |
| ResourceCommand.Taken | Server/Game/Commands/ResourceCommand.cpp:59-61 | a successful take gives the player one more of that kind, no other kind changes, and the player leaves its action |
| ResourceCommand.Dropped | Server/Game/Commands/ResourceCommand.cpp:87-88 | a successful set leaves the player one fewer of that kind, no other kind changes, and the player leaves its action |
| ResourceCommand.MoveConserves | Server/Game/Commands/ResourceCommand.cpp:59-87 | moving units between one tile and an inventory conserves map total plus inventory count for every kind and touches no other tile |
| ResourceCommand.TakeConserves | Server/Game/Commands/ResourceCommand.cpp:59-60 | take conserves, for every kind, the map total plus the player's count |
| ResourceCommand.DropConserves | Server/Game/Commands/ResourceCommand.cpp:86-87 | set conserves, for every kind, the map total plus the player's count |
| ResourceCommand.TakeThenDrop | Server/Game/Commands/ResourceCommand.cpp:41-93 | a take followed by a set of the same kind restores both the map and the inventory |
| ResourceCommand.ReportsNewState | Server/Game/Commands/ResourceCommand.cpp:28-39 | the pin and bct replies resourceSendGui sends describe the player and its tile as they are after the move |
| ResourceCommand.HandleTake | Server/Game/Commands/ResourceCommand.cpp:41-66 | an interrupted wait changes nothing else; otherwise "ko\n" alone for an unknown name or an empty tile count, else one unit moves from the tile to the player with "ok\n", "pgt #id r\n" and the pin/bct reports |
| ResourceCommand.TakeAfterWait | Server/Game/Commands/ResourceCommand.cpp:46-65 | handleTake after its wait: "ko\n" for an unknown or absent kind, otherwise the success path |
| ResourceCommand.TakeOne | Server/Game/Commands/ResourceCommand.cpp:59-65 | the tile loses one unit of the kind, the player gains it and leaves its action, then ok, pgt and the reports are sent |
| ResourceCommand.HandleDrop | Server/Game/Commands/ResourceCommand.cpp:68-93 | an interrupted wait changes nothing else; otherwise "ko\n" alone for an unknown name or an inventory count of 0, else one unit moves from the player to the tile with "ok\n", "pdr #id r\n" and the pin/bct reports |
| ResourceCommand.DropAfterWait | Server/Game/Commands/ResourceCommand.cpp:73-92 | handleDrop after its wait: "ko\n" for an unknown or unheld kind, otherwise the success path |
| ResourceCommand.DropOne | Server/Game/Commands/ResourceCommand.cpp:86-92 | the tile gains one unit of the kind, the player loses it and leaves its action, then ok, pdr and the reports are sent |
| EjectCommand.OnTileBelowSpec | Server/Game/Commands/EjectCommand.cpp:21-30 | the scan of the first n players keeps exactly the non-GRAPHIC players on (x, y), in ascending order |
| EjectCommand.PlayersOnTileSpec | Server/Game/Commands/EjectCommand.cpp:16-35 | _getPlayerOnTile lists exactly the players on (x, y) outside GRAPHIC teams, each once, in team then member order |
| EjectCommand.GetPlayerOnTile | Server/Game/Commands/EjectCommand.cpp:16-35 | the loop over the teams' members returns that list |
| EjectCommand.ExpulseCode | Server/Game/Commands/EjectCommand.cpp:37-56 | the direction sent is 1, 3, 5, 7 for a pusher facing North, East, South, West (2 * index + 1); the ejected player's orientation is unused |
| EjectCommand.EjectPosition | Server/Game/Commands/EjectCommand.cpp:61-85 | for a player on the map, the push followed by the edge fix-up is the wrapped step in the pusher's direction |
| EjectCommand.EdgeWrap | Server/Game/Commands/EjectCommand.cpp:82-85 | `(c + size) % size` applied when c reaches an edge or 0 agrees with the mathematical wrap for one step out of range |
| EjectCommand.Pushed | Server/Game/Commands/EjectCommand.cpp:102-103 | an ejected player is interrupted and moved by the push; nothing else about it changes |
| EjectCommand.EjectPlayerForward | Server/Game/Commands/EjectCommand.cpp:61-88 | ejectPlayerForward moves the player one wrapped tile in the pusher's direction and sends it "eject: K" with no newline |
| EjectCommand.EjectSentAppend | Server/Game/Commands/EjectCommand.cpp:98-109 | the loop's messages for two lists in a row are the messages of the first then of the second |
| EjectCommand.EjectSentSnoc | Server/Game/Commands/EjectCommand.cpp:98-109 | one more listed player adds that player's lines at the end |
| EjectCommand.EjectSentAround | Server/Game/Commands/EjectCommand.cpp:98-109 | the lines for the k-th listed player sit between those for the players before and after it |
| EjectCommand.PushOne | Server/Game/Commands/EjectCommand.cpp:102-107 | one pass on an ejected player: interrupted, pushed, told "eject: K", and "pex id" to every GUI |
| EjectCommand.PushStep | Server/Game/Commands/EjectCommand.cpp:98-109 | a listed player is untouched until its pass, and its pass extends the pushed-so-far and sent-so-far invariants; the pusher's own entry adds nothing |
| EjectCommand.EjectListed | Server/Game/Commands/EjectCommand.cpp:99-108 | the loop body for the k-th listed player keeps both loop invariants |
| EjectCommand.EjectAll | Server/Game/Commands/EjectCommand.cpp:97-109 | the loop pushes every listed player other than the pusher and sends exactly their eject and pex lines, in list order |
| EjectCommand.PushedKeepsGui | Server/Game/Commands/EjectCommand.cpp:102-107 | pushing a player keeps every socket and team, so the GUIs addressed stay the same |
| EjectCommand.HandleEject | Server/Game/Commands/EjectCommand.cpp:90-110 | an interrupted wait sends nothing; otherwise the players on the pusher's tile other than it (by id) are interrupted, pushed and reported, and the pusher gets no reply |
| EjectCommand.EjectTellsEjected | Server/Game/Commands/EjectCommand.cpp:98-108 | every ejected player is told "eject: K" for the pusher's orientation, and every GUI hears "pex id" for it |
| EjectCommand.WaitedOnTile | Server/Game/Commands/EjectCommand.cpp:93-97 | the wait changes only flags, so the players found on the pusher's tile are the same |
| EjectCommand.EjectOutcome | Server/Game/Commands/EjectCommand.cpp:90-110 | after handleEject exactly the non-GRAPHIC players on the pusher's tile with another id are moved and interrupted; everyone else, the pusher included, is unchanged |
| EjectCommand.EjectClearsTile | Server/Game/Commands/EjectCommand.cpp:61-88 | when the push axis has more than one tile, no ejected player remains on the pusher's tile |
| BroadcastCommand.BroadcastDistance | Server/Game/Commands/BroadcastCommand.cpp:10-32 | each coordinate of the distance is d, d - n or d + n (so it is congruent to x2 - x1), never longer than d, and for an on-map difference the shortest way round |
| BroadcastCommand.CardinalPoint | Server/Game/Commands/BroadcastCommand.cpp:34-56 | _getSoundCardinalPoint never answers SAME_POSITION |
| BroadcastCommand.CardinalPointSides | Server/Game/Commands/BroadcastCommand.cpp:34-56 | relY < 0 gives exactly the three front codes (2/1/8), relY > 0 the three back codes (4/5/6), relX < 0 the three left codes; an offset of (0, 0) is reported as EAST (7) |
| BroadcastCommand.CardinalTurn | Server/Game/Commands/BroadcastCommand.cpp:34-56 | turning a non-zero offset a quarter turn counter-clockwise moves the code two steps on (mod 8) |
| BroadcastCommand.RotateAsWritten | Server/Game/Commands/BroadcastCommand.cpp:71-88 | the switch keeps the offset for NORTH and negates it for SOUTH |
| BroadcastCommand.RotateComponents | Server/Game/Commands/BroadcastCommand.cpp:68-89 | the corrected frame change: relX is the offset's component to the receiver's right and relY minus its component to the front |
| BroadcastCommand.RotateAsWrittenMirrors | Server/Game/Commands/BroadcastCommand.cpp:76-87 | the written switch agrees with the correct frame for NORTH and SOUTH and is turned half round for EAST and WEST |
| BroadcastCommand.RotateNext | Server/Game/Commands/BroadcastCommand.cpp:68-89 | in the corrected frame, a receiver turned right sees every offset a quarter turn counter-clockwise |
| BroadcastCommand.SoundDirectionAsWritten | Server/Game/Commands/BroadcastCommand.cpp:58-90 | _computeSoundDirection as written answers 0 exactly when sender and receiver share coordinates |
| BroadcastCommand.SoundDirectionOf | Server/Game/Commands/BroadcastCommand.cpp:58-90 | the corrected direction answers 0 exactly when sender and receiver share coordinates |
| BroadcastCommand.DistanceNonZero | Server/Game/Commands/BroadcastCommand.cpp:61-66 | off the sender's tile, the wrapped offset is never (0, 0) |
| BroadcastCommand.TurnRightShiftsSound | Server/Game/Commands/BroadcastCommand.cpp:58-90 | with the corrected frame, a receiver that turns right hears a sender on another tile two codes further on |
| BroadcastCommand.TurnRightShiftsSoundAsWritten | Server/Game/Commands/BroadcastCommand.cpp:58-90 | as written, a right turn moves the heard code two steps the other way |
| BroadcastCommand.RotateAsWrittenNext | Server/Game/Commands/BroadcastCommand.cpp:71-88 | the written switch for the next orientation turns the offset a quarter turn clockwise and loses no offset |
| BroadcastCommand.CardinalTurnBack | Server/Game/Commands/BroadcastCommand.cpp:34-56 | turning a non-zero offset a quarter turn clockwise moves the code two steps back |
| BroadcastCommand.RotateNonZero | Server/Game/Commands/BroadcastCommand.cpp:68-89 | the corrected frame change loses no offset |
| BroadcastCommand.NeighbourHeard | Server/Game/Commands/BroadcastCommand.cpp:58-90 | with the corrected frame, a neighbour ahead, right, behind or left of the receiver is heard as 1, 7, 5 or 3 |
| BroadcastCommand.NeighbourHeardAsWritten | Server/Game/Commands/BroadcastCommand.cpp:58-90 | as written, receivers facing North or South hear neighbours as 1, 7, 5, 3, but receivers facing East or West hear them as 5, 3, 1, 7 |
| BroadcastCommand.RotateTurnedDirection | Server/Game/Commands/BroadcastCommand.cpp:68-89 | the step in direction o + k, seen by a receiver facing o, is ahead, right, behind or left for k = 0..3 |
| BroadcastCommand.NeighbourDistance | Server/Game/Commands/BroadcastCommand.cpp:10-32 | a wrapped step of -1, 0 or 1 is measured as that offset on a map at least 3 tiles long |
| BroadcastCommand.AsWrittenHearsAheadAsBehind | Server/Game/Commands/BroadcastCommand.cpp:76-79 | a receiver at (0, 0) facing East with the sender at (1, 0) is told 5 (behind) by the source, where the corrected frame gives 1 (ahead) |
| BroadcastCommand.HeardBy | Server/Game/Commands/BroadcastCommand.cpp:100-107 | a player hears nothing exactly when it is on the sender's socket |
| BroadcastCommand.BroadcastSkipsSender | Server/Game/Commands/BroadcastCommand.cpp:98-109 | no "message" line goes to the sender's socket |
| BroadcastCommand.BroadcastReaches | Server/Game/Commands/BroadcastCommand.cpp:98-109 | every other player gets "message K, text\n" with K its own (as-written) direction to the sender |
| BroadcastCommand.BroadcastWaited | Server/Game/Commands/BroadcastCommand.cpp:95-103 | the wait changes no socket, position or orientation, so the messages are the same before and after it |
| BroadcastCommand.HeardBySame | Server/Game/Commands/BroadcastCommand.cpp:100-106 | only the sockets, tiles and the receiver's facing decide what is heard |
| BroadcastCommand.SendBroadcast | Server/Game/Commands/BroadcastCommand.cpp:98-109 | the loop sends each player on another socket, team by team and member by member, its message |
| BroadcastCommand.BroadcastStep | Server/Game/Commands/BroadcastCommand.cpp:99-108 | one more player visited adds exactly what that player hears |
| BroadcastCommand.HearOne | Server/Game/Commands/BroadcastCommand.cpp:100-107 | one turn of the loop sends that player its message unless it is on the sender's socket |
| BroadcastCommand.HandleBroadcast | Server/Game/Commands/BroadcastCommand.cpp:92-114 | after a completed wait every player on another socket gets its message, then the sender leaves its action and gets "ok\n" and the GUIs get "pbc #id text\n"; an interrupted wait sends nothing |
| LookCommand.NormalizeAsWritten | Server/Game/Commands/LookCommand.cpp:10-16 | _normalizeCoords on an int passed as size_t always lands on the map |
| LookCommand.NormalizeCoord | Server/Game/Commands/LookCommand.cpp:10-16 | the intended wrap: the coordinate in [0, n) that differs from c by a multiple of n, and an on-map coordinate is kept |
| LookCommand.NormalizeAsWrittenNonNegative | Server/Game/Commands/LookCommand.cpp:10-16 | on a non-negative coordinate the written code gives the true remainder |
| LookCommand.NormalizeAsWrittenNegative | Server/Game/Commands/LookCommand.cpp:10-16 | on a negative coordinate the written code is off by 2^64 % n, and is right exactly when n divides 2^64 |
| LookCommand.NormalizeAsWrittenWrapsWrong | Server/Game/Commands/LookCommand.cpp:10-16 | one tile left of column 0 on a 10-wide map, the written code gives column 5 where the wrapped map has column 9 |
| LookCommand.LookTarget | Server/Game/Commands/LookCommand.cpp:43-67 | _computeLookTarget is the player's tile plus line steps ahead plus offset steps along the line's side |
| LookCommand.LookTargetInjective | Server/Game/Commands/LookCommand.cpp:43-67 | different (line, offset) pairs aim at different tiles, and (0, 0) aims at the player's own tile |
| LookCommand.SideRelativeToFacing | Server/Game/Commands/LookCommand.cpp:54-64 | the side step is perpendicular to the facing direction, pointing right for North and East and left for South and West |
| LookCommand.Repeat | Server/Game/Commands/LookCommand.cpp:77-79 | n copies of the word, and nothing else |
| LookCommand.UnitsBelow | Server/Game/Commands/LookCommand.cpp:80-94 | the units of the kinds below i, one name each: their count and the units of the remaining kinds make up the tile's total |
| LookCommand.Units | Server/Game/Commands/LookCommand.cpp:80-94 | a tile names exactly as many units as it holds |
| LookCommand.SpacedIsSpaceThenJoin | Server/Game/Commands/LookCommand.cpp:77-93 | words preceded by one space each are one space followed by the space-joined words |
| LookCommand.TileContentWords | Server/Game/Commands/LookCommand.cpp:69-97 | the corrected tile content is "player" once per player and then one name per unit, separated by single spaces, with a leading space exactly on the looker's tile or a tile holding a player |
| LookCommand.TileContentAsWrittenDiffers | Server/Game/Commands/LookCommand.cpp:77-93 | the written _getTileContent differs from the corrected one exactly on a tile other than the looker's that holds both players and items |
| LookCommand.TileContentAsWrittenRunsTogether | Server/Game/Commands/LookCommand.cpp:77-93 | one player and one food on a tile ahead are written " playerfood" where " player food" is meant |
| LookCommand.ItemsSnoc | Server/Game/Commands/LookCommand.cpp:84-93 | a unit appended to the items gets a space unless it is the first word and there is no lead |
| LookCommand.PlayerWords | Server/Game/Commands/LookCommand.cpp:76-79 | the first loop writes " player" once per player on the tile |
| LookCommand.AppendUnits | Server/Game/Commands/LookCommand.cpp:84-93 | the inner loop appends q names of one kind with the spacing rule of the tile |
| LookCommand.AppendUnit | Server/Game/Commands/LookCommand.cpp:85-92 | one pass appends the name, after a space unless it is the first word of a tile other than the looker's |
| LookCommand.GetTileContent | Server/Game/Commands/LookCommand.cpp:69-97 | _getTileContent gives the written content for the players on the tile and its stock |
| LookCommand.LineTiles | Server/Game/Commands/LookCommand.cpp:105-126 | a line of sight at distance line holds 2 * line + 1 tiles |
| LookCommand.ViewTilesLength | Server/Game/Commands/LookCommand.cpp:128-141 | lines 0 to n - 1 hold n * n tiles |
| LookCommand.ViewTilesIndex | Server/Game/Commands/LookCommand.cpp:128-141 | tile j of line l is entry l * l + j of the view, the tile at offset j - l |
| LookCommand.LookMessageShape | Server/Game/Commands/LookCommand.cpp:128-141 | the reply covers (level + 1)^2 tiles, begins with "[" and the looker's own tile, and ends with "]\n" |
| LookCommand.LookLine | Server/Game/Commands/LookCommand.cpp:99-126 | each tile of a line is followed by a comma, except the very last tile of the last line |
| LookCommand.BuildLookMessage | Server/Game/Commands/LookCommand.cpp:128-141 | the message is "[" then lines 0 to level comma-separated, then "]\n" |
| LookCommand.ViewStep | Server/Game/Commands/LookCommand.cpp:134-137 | adding a line extends the comma-terminated and the comma-joined view by that line's tiles |
| LookCommand.LookTile | Server/Game/Commands/LookCommand.cpp:112-118 | one tile of a line: its target, wrapped as written onto the map, and its content |
| LookCommand.HandleLook | Server/Game/Commands/LookCommand.cpp:143-151 | after a completed wait the player leaves its action and receives the view of the map; an interrupted wait sends nothing |
| IncantationCommand.Matching | Server/Game/Commands/IncantationCommand.cpp:10-39 | the search below n yields indices below n only |
| IncantationCommand.Selected | Server/Game/Commands/IncantationCommand.cpp:10-39 | every index the search yields names a player |
| IncantationCommand.MatchingSpec | Server/Game/Commands/IncantationCommand.cpp:10-39 | the search below n yields exactly the matching indices, in ascending order |
| IncantationCommand.SelectedSpec | Server/Game/Commands/IncantationCommand.cpp:10-39 | _getPlayersForIncant and _getPlayersIncanting find exactly the players on the tile at the level (and, for the second, praying), each once, in loop order |
| IncantationCommand.AscendingUnique | Server/Game/Commands/IncantationCommand.cpp:10-39 | two ascending lists with the same elements are equal, so the search result is determined |
| IncantationCommand.MatchingKept | Server/Game/Commands/IncantationCommand.cpp:10-39 | players that agree on the compared fields give the same search result |
| IncantationCommand.GetPlayers | Server/Game/Commands/IncantationCommand.cpp:10-39 | the nested loop over teams and members returns the selection |
| IncantationCommand.CheckIncantationResources | Server/Game/Commands/IncantationCommand.cpp:41-60 | true exactly when the level is in 1..7 and the tile holds at least the row's amount of every stone |
| IncantationCommand.StonesCoveredMeansAll | Server/Game/Commands/IncantationCommand.cpp:50-59 | the six written comparisons say the tile covers the row for every resource (food is required 0) |
| IncantationCommand.CheckIncantationConditions | Server/Game/Commands/IncantationCommand.cpp:62-77 | true exactly when the level is below 8, enough same-level players share the tile, and the tile holds the stones |
| IncantationCommand.CheckIncantationConditionsAsWritten | Server/Game/Commands/IncantationCommand.cpp:62-77 | reading the row before the level test gives the same answer wherever the row exists |
| IncantationCommand.RowReadPastEnd | Server/Game/Commands/IncantationCommand.cpp:65-69 | a level-8 player has no row: the written read is one past the end of the table |
| IncantationCommand.Consumed | Server/Game/Commands/IncantationCommand.cpp:79-98 | the tile after the ritual holds each stone less the row's amount and the same food |
| IncantationCommand.ConsumedQuantities | Server/Game/Commands/IncantationCommand.cpp:86-97 | the six removal loops reduce each stone by the row's amount |
| IncantationCommand.ConsumedTotal | Server/Game/Commands/IncantationCommand.cpp:79-98 | the ritual removes exactly the row's stones from the tile, no more |
| IncantationCommand.RemoveUnits | Server/Game/Commands/IncantationCommand.cpp:86-97 | one removal loop takes n units of one kind from that tile and changes no other tile |
| IncantationCommand.ConsumeElevationResources | Server/Game/Commands/IncantationCommand.cpp:79-98 | the tile loses the row's stones and no other tile changes |
| IncantationCommand.IdList | Server/Game/Commands/IncantationCommand.cpp:147-154 | the intended participant list is empty exactly when there are no ids |
| IncantationCommand.IdListSnoc | Server/Game/Commands/IncantationCommand.cpp:147-154 | one more id appends its decimal tag |
| IncantationCommand.IdListAsWritten | Server/Game/Commands/IncantationCommand.cpp:147-154 | as written every id takes exactly three characters, " #" and one byte |
| IncantationCommand.IdListAsWrittenSnoc | Server/Game/Commands/IncantationCommand.cpp:147-154 | one more praying player appends its byte tag |
| IncantationCommand.IdListAsWrittenBytes | Server/Game/Commands/IncantationCommand.cpp:152-153 | the k-th participant is sent as " #" and its id modulo 256 as one character |
| IncantationCommand.IdListAsWrittenDiffers | Server/Game/Commands/IncantationCommand.cpp:152-153 | any id of two or more digits is written differently from its decimal form |
| IncantationCommand.IdListAsWrittenExample | Server/Game/Commands/IncantationCommand.cpp:152-153 | id 12 reaches the client as " #" and a form feed instead of " #12" |
| IncantationCommand.RitualOutcome | Server/Game/Commands/IncantationCommand.cpp:100-193 | a raised player gains exactly one level and ends neither praying nor busy, the initiator always ends free, other players are untouched, and nobody moves or loses inventory |
| IncantationCommand.Picked | Server/Game/Commands/IncantationCommand.cpp:104-154 | the players a loop acts on are players |
| IncantationCommand.TellSnoc | Server/Game/Commands/IncantationCommand.cpp:113-132 | telling one more player appends one message to its socket |
| IncantationCommand.PickedSnoc | Server/Game/Commands/IncantationCommand.cpp:104-154 | one more index of the list is picked exactly when the loop acts on it |
| IncantationCommand.IdsSnoc | Server/Game/Commands/IncantationCommand.cpp:147-154 | one more player appends its id |
| IncantationCommand.PickedMembers | Server/Game/Commands/IncantationCommand.cpp:104-154 | a loop acts on exactly the listed players it addresses |
| IncantationCommand.PickedAscending | Server/Game/Commands/IncantationCommand.cpp:104-154 | a loop acts on players in list order |
| IncantationCommand.PickedFromSelection | Server/Game/Commands/IncantationCommand.cpp:100-154 | on a search result, a loop acts on exactly the matching addressed players, in order |
| IncantationCommand.TurnOn | Server/Game/Commands/IncantationCommand.cpp:104-128 | one turn of a loop keeps the number of players |
| IncantationCommand.Through | Server/Game/Commands/IncantationCommand.cpp:104-128 | the loop keeps the number of players |
| IncantationCommand.TurnOnApplies | Server/Game/Commands/IncantationCommand.cpp:104-128 | a turn on an index not yet visited changes that player only |
| IncantationCommand.AscendingFreshUpTo | Server/Game/Commands/IncantationCommand.cpp:10-39 | a search result never lists a player twice |
| IncantationCommand.SentOnTells | Server/Game/Commands/IncantationCommand.cpp:113-132 | a turn tells the player it acts on the common text |
| IncantationCommand.ThroughApplies | Server/Game/Commands/IncantationCommand.cpp:104-128 | over a list with no repeats, the loop takes exactly the listed players through its step |
| IncantationCommand.ThroughTells | Server/Game/Commands/IncantationCommand.cpp:113-132 | when every addressed player gets the same text, the loop tells exactly those, in list order |
| IncantationCommand.LoopOutcome | Server/Game/Commands/IncantationCommand.cpp:100-137 | a whole loop over a search result changes and tells exactly the players it acts on |
| IncantationCommand.TurnAll | Server/Game/Commands/IncantationCommand.cpp:100-137 | the loop of _setPrayer or _elevatePlayer changes and tells the players it acts on, in order |
| IncantationCommand.Gathered | Server/Game/Commands/IncantationCommand.cpp:100-103 | the gathered players are players, in ascending order |
| IncantationCommand.SetPrayer | Server/Game/Commands/IncantationCommand.cpp:100-115 | every gathered player that was free becomes busy, prays and is told "Elevation underway\n"; busy ones and everybody else are unchanged |
| IncantationCommand.ElevatePlayer | Server/Game/Commands/IncantationCommand.cpp:117-137 | every player praying on the tile at the level rises one level, stops praying, is set free and told "Current level: N\n"; nobody else changes |
| IncantationCommand.PicStep | Server/Game/Commands/IncantationCommand.cpp:147-154 | one more player adds its byte tag when it prays and nothing otherwise |
| IncantationCommand.PicParticipants | Server/Game/Commands/IncantationCommand.cpp:144-154 | the loop lists the praying players of the tile, in order, one byte per id |
| IncantationCommand.PrintPic | Server/Game/Commands/IncantationCommand.cpp:139-156 | the "pic x y level ..." line goes to every graphical client |
| IncantationCommand.Rechecked | Server/Game/Commands/IncantationCommand.cpp:157-167 | after the re-check only the initiator changes, and it prays exactly when the conditions still hold |
| IncantationCommand.RecheckReplies | Server/Game/Commands/IncantationCommand.cpp:159-166 | the re-check sends nothing exactly when the conditions still hold |
| IncantationCommand.Recheck | Server/Game/Commands/IncantationCommand.cpp:159-167 | on failure "pie x y 0" goes to the graphical clients, the initiator stops acting and praying and is told "ko\n"; on success it prays |
| IncantationCommand.Refusal | Server/Game/Commands/IncantationCommand.cpp:173-179 | a refused ritual sends "pie x y 0" to each graphical client and then "ko\n" to the player |
| IncantationCommand.Refuse | Server/Game/Commands/IncantationCommand.cpp:173-179 | the refusal is sent and nothing else changes |
| IncantationCommand.CallOff | Server/Game/Commands/IncantationCommand.cpp:159-166 | the failed re-check sends the refusal and frees the initiator |
| IncantationCommand.AfterPrinting | Server/Game/Commands/IncantationCommand.cpp:157-167 | after incantationPrinting only the initiator can have changed |
| IncantationCommand.WaitedGuiSockets | Server/Game/Commands/IncantationCommand.cpp:157-158 | the wait changes no socket or team, so the same graphical clients are addressed |
| IncantationCommand.AwaitRitual | Server/Game/Commands/IncantationCommand.cpp:157-167 | the wait, then, when it completed, the re-check |
| IncantationCommand.IncantationPrinting | Server/Game/Commands/IncantationCommand.cpp:139-167 | "pic" goes to the graphical clients, then the wait, then the re-check when the wait completed |
| IncantationCommand.KeptGui | Server/Game/Commands/IncantationCommand.cpp:100-137 | players that keep their connections keep the set of graphical clients |
| IncantationCommand.TellKept | Server/Game/Commands/IncantationCommand.cpp:113-132 | players that keep their connections are told on the same sockets |
| IncantationCommand.IdsKept | Server/Game/Commands/IncantationCommand.cpp:147-154 | players that keep their ids are listed with the same ids |
| IncantationCommand.PickedAgree | Server/Game/Commands/IncantationCommand.cpp:104-154 | loops that address the same indices act on the same players |
| IncantationCommand.SelectionKept | Server/Game/Commands/IncantationCommand.cpp:10-23 | players that keep their tiles and levels are found by the same search |
| IncantationCommand.JoinedFacts | Server/Game/Commands/IncantationCommand.cpp:100-115 | _setPrayer moves nobody, joins the initiator, and leaves the same search result |
| IncantationCommand.JoinedPic | Server/Game/Commands/IncantationCommand.cpp:139-156 | the "pic" line lists the players praying once _setPrayer is over |
| IncantationCommand.JoinedIds | Server/Game/Commands/IncantationCommand.cpp:144-154 | the ids of that list, in terms of the players before _setPrayer |
| IncantationCommand.RecheckPasses | Server/Game/Commands/IncantationCommand.cpp:157-167 | with no other change to the world, the re-check after the wait sees what the first check saw and sends nothing |
| IncantationCommand.PreparedFacts | Server/Game/Commands/IncantationCommand.cpp:139-167 | after the wait the players are the gathered ones joined and the initiator prepared |
| IncantationCommand.PreparePlayers | Server/Game/Commands/IncantationCommand.cpp:180-181 | the players after _setPrayer and incantationPrinting |
| IncantationCommand.PrepareSent | Server/Game/Commands/IncantationCommand.cpp:180-181 | the messages of _setPrayer and incantationPrinting together |
| IncantationCommand.Prepare | Server/Game/Commands/IncantationCommand.cpp:180-181 | with the conditions met, every gathered player joins, the free ones are told the ritual is underway, and the graphical clients get the "pic" line |
| IncantationCommand.Announce | Server/Game/Commands/IncantationCommand.cpp:182-188 | "pie x y 1", "plv #id level+1", the row's stones consumed on the initiator's tile, "pie x y 1" |
| IncantationCommand.Herald | Server/Game/Commands/IncantationCommand.cpp:182-185 | "pie x y 1" then "plv #id level+1" to every graphical client |
| IncantationCommand.Raise | Server/Game/Commands/IncantationCommand.cpp:189-191 | _elevatePlayer, then the initiator stops acting and praying |
| IncantationCommand.PickedWhole | Server/Game/Commands/IncantationCommand.cpp:121-125 | a list whose every player prays is acted on whole |
| IncantationCommand.PreparedKept | Server/Game/Commands/IncantationCommand.cpp:180-181 | preparing moves nobody and keeps every connection |
| IncantationCommand.PreparedInitiator | Server/Game/Commands/IncantationCommand.cpp:180-181 | the initiator keeps its tile and level while the ritual is prepared |
| IncantationCommand.RaisingMember | Server/Game/Commands/IncantationCommand.cpp:117-125 | _elevatePlayer's search takes an index exactly when that player prays after preparation |
| IncantationCommand.RaisingMembers | Server/Game/Commands/IncantationCommand.cpp:117-125 | _elevatePlayer's search finds exactly the players praying after preparation |
| IncantationCommand.RaisingFacts | Server/Game/Commands/IncantationCommand.cpp:117-137 | the players _elevatePlayer finds after preparation all pray, so each is raised |
| IncantationCommand.RitualPlayer | Server/Game/Commands/IncantationCommand.cpp:169-193 | each gathered player goes through the ritual and every other player is unchanged |
| IncantationCommand.RitualPlayers | Server/Game/Commands/IncantationCommand.cpp:169-193 | the whole of the handler takes each gathered player through the ritual and changes nobody else |
| IncantationCommand.RitualSent | Server/Game/Commands/IncantationCommand.cpp:169-193 | the messages of preparing, announcing and raising together |
| IncantationCommand.Incant | Server/Game/Commands/IncantationCommand.cpp:180-191 | with the conditions met, every gathered player goes through the ritual, the tile loses the row's stones, and the replies are sent in order |
| IncantationCommand.Conclude | Server/Game/Commands/IncantationCommand.cpp:182-191 | the announcement, the consumption and the raising |
| IncantationCommand.HandleIncantation | Server/Game/Commands/IncantationCommand.cpp:169-193 | when the conditions fail, "pie x y 0" and "ko\n" and nothing else changes; otherwise the ritual runs, the stones are consumed and the participants rise one level |
| GuiCommand.RepliesAppend | Server/Game/Commands/GuiCommand.cpp:10-158 | the replies to one client for two lists of texts are those of the first then those of the second |
| GuiCommand.LinesHave | Server/Game/Commands/GuiCommand.cpp:61-67 | a line is listed exactly when it is the line of an admitted element |
| GuiCommand.LinesPrefix | Server/Game/Commands/GuiCommand.cpp:63-66 | one more element adds its line when admitted |
| GuiCommand.MszReadable | Server/Game/Commands/GuiCommand.cpp:10-14 | after "msz" the reply reads back as the width and the height, then the newline |
| GuiCommand.HandleMsz | Server/Game/Commands/GuiCommand.cpp:10-14 | "msz X Y\n" goes to the requesting client |
| GuiCommand.ParseBct | Server/Game/Commands/GuiCommand.cpp:36-43 | a successful parse holds two values that fit an int |
| GuiCommand.ParseBctOfRequest | Server/Game/Commands/GuiCommand.cpp:53-57 | the request "x y" that handleMct builds parses back as (x, y) |
| GuiCommand.ParseBctReads | Server/Game/Commands/GuiCommand.cpp:43 | two reads that succeed and no word after them give the two coordinates |
| GuiCommand.BctAsWrittenReadsPastGrid | Server/Game/Commands/GuiCommand.cpp:43-45 | the request "W 0" passes the written bound although column W is past the last column of the grid |
| GuiCommand.BctAcceptsNarrower | Server/Game/Commands/GuiCommand.cpp:43 | the corrected bound admits exactly the written one's coordinates except x == width and y == height |
| GuiCommand.BctReply | Server/Game/Commands/GuiCommand.cpp:34-51 | the reply is "ko\n" exactly when the request does not parse or names a tile off the map |
| GuiCommand.BctReadable | Server/Game/Commands/GuiCommand.cpp:44-47 | after "bct" the reply reads back as the coordinates and the seven quantities in resource order |
| GuiCommand.HandleBct | Server/Game/Commands/GuiCommand.cpp:34-51 | the bct reply goes to the requesting client and nothing else changes |
| GuiCommand.BctReplyRejected | Server/Game/Commands/GuiCommand.cpp:49-50 | a malformed request or a tile off the map gets "ko\n" |
| GuiCommand.BctReplyAccepted | Server/Game/Commands/GuiCommand.cpp:43-48 | an accepted request gets "bct X Y" and the tile's quantities |
| GuiCommand.CellsProduct | Server/Game/Commands/GuiCommand.cpp:55-58 | width columns of height rows give width * height replies |
| GuiCommand.ColumnAt | Server/Game/Commands/GuiCommand.cpp:56-57 | row y of a column comes at position y |
| GuiCommand.ColumnsLength | Server/Game/Commands/GuiCommand.cpp:55-58 | the nested loops visit one entry per tile |
| GuiCommand.ColumnsAt | Server/Game/Commands/GuiCommand.cpp:55-58 | tile (x, y) comes after the x earlier columns, at row y of its own column |
| GuiCommand.TileReplyOnGrid | Server/Game/Commands/GuiCommand.cpp:55-57 | every request handleMct makes is accepted and answered with that tile |
| GuiCommand.MctOrder | Server/Game/Commands/GuiCommand.cpp:53-59 | handleMct sends one reply per tile, the reply for (x, y) at position x * height + y |
| GuiCommand.HandleMct | Server/Game/Commands/GuiCommand.cpp:53-59 | the client gets the bct reply of every tile, x in the outer loop and y in the inner one |
| GuiCommand.MctColumn | Server/Game/Commands/GuiCommand.cpp:56-57 | the inner loop sends column x's replies row by row |
| GuiCommand.TnaNamesTeams | Server/Game/Commands/GuiCommand.cpp:61-67 | a line is among the tna replies exactly when it names a team other than GRAPHIC |
| GuiCommand.HandleTna | Server/Game/Commands/GuiCommand.cpp:61-67 | the client gets "tna name\n" for each team in list order, GRAPHIC left out |
| GuiCommand.NameTeam | Server/Game/Commands/GuiCommand.cpp:64-65 | one turn names the team unless it is GRAPHIC |
| GuiCommand.StreamInt | Server/Game/Commands/GuiCommand.cpp:75-76 | stream >> int leaves a value that fits an int, and 0 when no number can be read |
| GuiCommand.StreamIntSaturates | Server/Game/Commands/GuiCommand.cpp:153-155 | a decimal number outside the int range is read as the nearest bound |
| GuiCommand.StreamIntOfIntToString | Server/Game/Commands/GuiCommand.cpp:75-76 | an int written in decimal reads back as itself |
| GuiCommand.FindPlayer | Server/Game/Commands/GuiCommand.cpp:78-90 | the lookup finds the first player with the id, or none exactly when no player holds it |
| GuiCommand.LookupPlayer | Server/Game/Commands/GuiCommand.cpp:78-90 | the loops over every team's member list return the first player with the id |
| GuiCommand.OrientationCode | Server/Game/Commands/MoveCommand.cpp:17-22 | the protocol's orientation code is in 1..4 |
| GuiCommand.OrientationCodeAsWritten | Server/Game/Commands/GuiCommand.cpp:84 | int(orientation + 1) with the cyclic + is in 0..3 |
| GuiCommand.OrientationCodeWrapsWest | Server/Game/Commands/GuiCommand.cpp:84 | the cyclic code is the protocol code mod 4, so it differs exactly for West (0 instead of 4) |
| GuiCommand.PpoAsWrittenMisreports | Server/Game/Commands/GuiCommand.cpp:80-84 | a client facing West asking about a player facing North is not told that player's orientation |
| GuiCommand.ReplyAboutPlayer | Server/Game/Commands/GuiCommand.cpp:69-139 | asking by an id in decimal gets the first holder's position (with the requester's orientation), level and inventory |
| GuiCommand.FoundFirst | Server/Game/Commands/GuiCommand.cpp:78-90 | the lookup stops at the first player holding the id |
| GuiCommand.ReplyAboutNobody | Server/Game/Commands/GuiCommand.cpp:91-138 | an id nobody holds gets "ko\n" from ppo, plv and pin |
| GuiCommand.PinReadable | Server/Game/Commands/GuiCommand.cpp:127-132 | after "pin #" the reply reads back as the id, the tile and the seven quantities |
| GuiCommand.PpoLineReadable | Server/Game/Commands/GuiCommand.cpp:81-84 | after "ppo #" a ppo line reads back as its four numbers, and only the newline is left |
| GuiCommand.PpoReadable | Server/Game/Commands/MoveCommand.cpp:17-22 | after "ppo #" the movement report reads back as the id, the tile and the orientation code |
| GuiCommand.PpoAsWrittenReadable | Server/Game/Commands/GuiCommand.cpp:81-84 | handlePpo's reply reads back as the looked-up player's id and tile and the requester's cyclic code |
| GuiCommand.HandlePpo | Server/Game/Commands/GuiCommand.cpp:69-92 | the ppo reply (or "ko\n") goes to the requesting client |
| GuiCommand.HandlePlv | Server/Game/Commands/GuiCommand.cpp:94-113 | "plv #id level\n" of the first player with the id (or "ko\n") goes to the requesting client |
| GuiCommand.HandlePin | Server/Game/Commands/GuiCommand.cpp:115-139 | "pin #id x y q0 ... q6\n" of the first player with the id (or "ko\n") goes to the requesting client |
| GuiCommand.WriteQuantities | Server/Game/Commands/GuiCommand.cpp:129-130 | the loop writes the seven quantities, each followed by one space |
| GuiCommand.DropLast | Server/Game/Commands/GuiCommand.cpp:131 | pop_back takes back exactly the last space |
| GuiCommand.SgtReadable | Server/Game/Commands/GuiCommand.cpp:141-144 | after "sgt" the reply reads back as the time unit |
| GuiCommand.HandleSgt | Server/Game/Commands/GuiCommand.cpp:141-144 | "sgt T\n" goes to the requesting client |
| GuiCommand.HandleSst | Server/Game/Commands/GuiCommand.cpp:146-158 | the value read becomes the time unit and is reported back as "sgt T\n" |
| GuiCommand.PnwAsWrittenMisreportsWest | Server/Game/Commands/HandleGuiCommand.cpp:31 | a player facing West is announced with orientation 0, which is no protocol code |
| GuiCommand.PnwAnnouncesPlayers | Server/Game/Commands/HandleGuiCommand.cpp:18-37 | every member of a player team is announced, and nobody else |
| GuiCommand.HandlePnw | Server/Game/Commands/HandleGuiCommand.cpp:18-37 | the new graphical client gets a pnw line for each member of each player team, in order |
| GuiCommand.AnnounceOne | Server/Game/Commands/HandleGuiCommand.cpp:25-33 | one turn announces the player when it belongs to a player team |
| GuiCommand.InitGuiCommandMap | Server/Game/Commands/GuiCommand.cpp:160-173 | exactly the nine requests msz, bct, mct, tna, ppo, plv, pin, sgt and sst are registered |
| GuiCommand.GuiAnswer | Server/Game/Commands/GuiCommand.cpp:195-205 | an unknown request is answered "suc\n" only |
| GuiCommand.Popped | Server/Game/Commands/GuiCommand.cpp:198-204 | the oldest queued line is taken off when there is one, and nothing else of the player changes |
| GuiCommand.ProcessGuiInput | Server/Game/Commands/GuiCommand.cpp:175-206 | the map is filled lazily, the request is answered from the state before it, "sst" sets the time unit, and one queued line is consumed whether the request was known or not |
| GuiCommand.RunGuiCommand | Server/Game/Commands/GuiCommand.cpp:162-172 | the registered handler for the name runs for the requesting client |
| GuiCommand.RequestReachesHandler | Server/Game/Commands/GuiCommand.cpp:180-192 | "cmd #n" with or without its newline reaches the handler as the name and the id n |
| GuiCommand.StripHash | Server/Game/Commands/GuiCommand.cpp:180-185 | taking the '#' out of "cmd #v" leaves "cmd v" |
| GuiProtocol.CastGuiProtocol | Data/Gui/GuiProtocol.hpp:52-62 | the cast is the enumerator's position, at most 25, and 25 exactly for SIZE |
| GuiProtocol.MapEntry | Data/Gui/GuiProtocol.hpp:64-93 | every code in the map has three characters |
| GuiProtocol.FromCode | Data/Gui/GuiProtocol.hpp:95-105 | string to enum never yields SIZE |
| GuiProtocol.ToCode | Data/Gui/GuiProtocol.hpp:107-118 | enum to string yields a three-character code, and "suc" for SIZE |
| GuiProtocol.EnumRoundTrip | Data/Gui/GuiProtocol.hpp:67-118 | enum to string to enum is the identity on the 25 enumerators, and SIZE comes back as UNKNOWN_COMMAND |
| GuiProtocol.CodesDistinct | Data/Gui/GuiProtocol.hpp:62-93 | the 25 map entries have pairwise distinct codes and GuiProtocolCount is 25 |
| GuiProtocol.CodeRoundTrip | Data/Gui/GuiProtocol.hpp:67-118 | string to enum to string is the identity on the 25 codes, and every other string maps to UNKNOWN_COMMAND |
| ServerGame.LevelCount | Server/Game/Game.cpp:75-79 | the members counted at level 8 or above are never more than the team's members |
| ServerGame.WinnerFrom | Server/Game/Game.cpp:72-87 | the first team from t on, in team order, that is not GRAPHIC and has six members at level 8; none exactly when no such team exists |
| ServerGame.CheckWin | Server/Game/Game.cpp:67-88 | checkWin is true exactly when some team wins, and then "seg name\n" of the first such team goes to every graphical client; otherwise nothing is sent |
| ServerGame.CountAtWinLevel | Server/Game/Game.cpp:75-79 | the inner loop counts the team's members at level 8 or above |
| ServerGame.AlreadyInTeam | Server/Game/Game.cpp:90-101 | true exactly when some team already holds a player on the socket |
| ServerGame.FindTeam | Server/Game/Game.cpp:106-109 | find_if returns the first team with the name, or none exactly when no team has it |
| ServerGame.GroupEnd | Server/Game/Game.cpp:38 | addPlayer's position: the end of team t's member list, after every member of team t or an earlier team |
| ServerGame.NewMember | Server/Game/Game.cpp:33-62 | a player-team joiner starts at level 1 on the egg's tile with the next id; a GRAPHIC joiner gets id -1 on (-1, -1) |
| ServerGame.Game.constructor | Server/Game/Game.hpp:67-72 | a new game's next player id is 1 and its player list is empty |
| ServerGame.Game.AddPlayerToTeam | Server/Game/Game.cpp:17-65 | a player-team joiner hatches from the popped egg ("ebo", "edi" to the graphical clients), takes the next id, and is announced with "pnw" unless its team is GRAPHIC; a GRAPHIC joiner is added and nothing is sent |
| ServerGame.Game.HandleTeamJoin | Server/Game/Game.cpp:103-125 | the client joins exactly when its team is not a full player team and no team holds its socket; a refusal changes nothing |
| ServerGame.Game.RemoveFromTeam | Server/Game/Game.cpp:127-138 | the first player, team after team, on the socket leaves its team and nobody else moves |
| ServerGame.FirstFound | Server/Game/Game.cpp:129-137 | the search stops at the first player on the socket |
| ServerGame.FoodStep | Server/Game/Game.cpp:150-179 | when the timer ran out, a connected player with food loses exactly one and the graphical clients get its pin; with none left it is sent "dead\n", leaves its team, and the graphical clients get "pdi #id\n" |
| ServerGame.ParsedTeamsNamed | Server/Server/Base.cpp:55-57 | the teams parsed from the command line never include a player team named GRAPHIC |
| ServerGame.SmallTeamCannotWin | Server/Game/Game.cpp:80 | a team with fewer than six members cannot win |
| ServerGame.MemberCountAppend | Server/Game/Game.cpp:38 | member counts add up over a split of the member lists |
| ServerGame.JoinedCounts | Server/Game/Game.cpp:38 | a joiner adds one member to its own team and none to any other |
| ServerGame.JoinedGrouped | Server/Game/Game.cpp:38 | the member lists stay laid out team after team once a joiner is in |
| ServerGame.JoinWithinCapacity | Server/Game/Game.cpp:112-118 | a join never takes a player team past its capacity |
| ServerGame.JoinKeepsSocketsUnique | Server/Game/Game.cpp:119-120 | a join keeps sockets unique |
| ServerGame.JoinIdFresh | Server/Game/Game.cpp:35-37 | a player-team joiner's id is held by no member of a player team, and ids stay below the counter |
| ServerGame.RemovedCounts | Server/Game/Game.cpp:127-138 | with unique sockets, the removed player's team loses exactly that member and no other team changes |
| ServerGame.FedPlayerReported | Server/Game/Game.cpp:157-166 | the pin sent after feeding describes the player with one food less |
| ServerGame.DeathKeepsGuiSockets | Server/Game/Game.cpp:170-175 | a starving player is no graphical client, so its death leaves the graphical clients as they were |
| ServerGame.GuiSocketsNotGui | Server/Game/Commands/ClientCommand.cpp:11-21 | a lone player of a player team receives no graphical message |
| ServerGame.GuiSocketsAppend | Server/Game/Commands/ClientCommand.cpp:11-21 | the graphical clients of a split list are those of each part, in order |
| ServerArgs.HandleFlag | Server/Server/Base.cpp:35-43 | stream >> int gives a value that fits an int, or leaves the uninitialised result as it was |
| ServerArgs.SetFlag | Server/Server/Base.cpp:18-24 | a flag's lambda sets one int setting and leaves the names and teams alone |
| ServerArgs.NamesFrom | Server/Server/Base.cpp:52-63 | the -n loop stops at or after where it started, within argv, and on an argument when it throws |
| ServerArgs.NameList | Server/Server/Base.cpp:45-71 | _parseName returns an index past the "-n" and within argv |
| ServerArgs.FirstWithSocket | Server/Server/Base.cpp:95-105 | the first player with the socket, in team order then member order, or none exactly when no player has it |
| ServerArgs.Server.constructor | Server/Server/Server.hpp:147-158 | every int setting starts as noValue, with no names and no teams |
| ServerArgs.Server.ParseName | Server/Server/Base.cpp:45-71 | the names after -n become player teams 1, 2, ..., GRAPHIC is added, and the index is left on the last argument consumed; a GRAPHIC name or an empty list throws |
| ServerArgs.Server.Assign | Server/Server/Base.cpp:18-24 | the lambda stores the value in its setting |
| ServerArgs.Server.ParseFlagsInt | Server/Server/Base.cpp:73-81 | an unknown flag throws "Missing or invalid value" and changes nothing; a known one stores the value read |
| ServerArgs.Server.CheckParameters | Server/Server/Base.cpp:83-93 | _checkParams throws exactly when a setting is missing, the frequency is not positive or there are no names |
| ServerArgs.Server.ParseFlags | Server/Server/Base.cpp:109-127 | the option loop and then the validation leave the settings and throw the error CommandLine computes |
| ServerArgs.Server.GetPlayerBySocket | Server/Server/Base.cpp:95-105 | the loops return the first player with the socket, or none exactly when no player has it |
| ServerArgs.Numbered | Server/Server/Base.cpp:58-62 | the names become player teams with consecutive ids, in order |
| ServerArgs.NamesStop | Server/Server/Base.cpp:52-57 | a -n list stops at the end, at an argument starting with '-', or with the error at a name GRAPHIC; no name before the stop is either |
| ServerArgs.NumberedCons | Server/Server/Base.cpp:58-62 | the first name gets the first id and the rest are numbered on from the next |
| ServerArgs.NamesNumbered | Server/Server/Base.cpp:52-63 | the names up to the stop become player teams numbered in order |
| ServerArgs.NamesPushed | Server/Server/Base.cpp:55-57 | the names pushed are the arguments up to the stop, GRAPHIC included when the list stopped on it |
| ServerArgs.FirstNameList | Server/Server/Base.cpp:45-71 | a first -n list n1 ... nk gives teams n1 ... nk numbered 1 to k, then GRAPHIC with id 0 |
| ServerArgs.NamesKeepGuiByName | Server/Server/Base.cpp:55-67 | the teams a -n list adds are the GRAPHIC team exactly when they are named GRAPHIC |
| ServerArgs.ParseKeepsGuiByName | Server/Server/Base.cpp:109-127 | parsing adds only player teams not named GRAPHIC and the GRAPHIC team itself |
| ServerArgs.FlagReadable | Server/Server/Base.cpp:35-43 | a flag value written in decimal is read back as itself |
| ServerArgs.IntFlagIsNotNames | Server/Server/Base.cpp:18-24 | none of the int flags is "-n" |
| ServerArgs.FlagStep | Server/Server/Base.cpp:114-124 | an int flag stores its value and the loop goes on after the value |
| ServerArgs.NamesStep | Server/Server/Base.cpp:119-122 | the -n branch runs _parseName and goes on after the list |
| ServerArgs.UnknownFlagRejected | Server/Server/Base.cpp:75-77 | any other flag before the last argument throws "Missing or invalid value" |
| ServerArgs.LastFlagHasNoValue | Server/Server/Base.cpp:123 | a flag as the last argument has only the null argv[argc] as its value |
| ServerArgs.EmptyNamesRejected | Server/Server/Base.cpp:65-69 | a first "-n" with no name after it throws |
| ServerArgs.AcceptedSettings | Server/Server/Base.cpp:83-93 | once the validation passes every setting was given and the frequency is positive, so the default-100 branch is never taken |
| ServerArgs.GameTeams | Server/Server/Base.cpp:27-28 | the game keeps each parsed team's name and id and gives every player team the capacity clientNb |
| CollectResources.Rank | Client/ai/strategy/state/collect_resources.py:197-213 | a kind in the rarity order sits at its rank |
| CollectResources.Threshold | Client/ai/strategy/state/collect_resources.py:108-115 | the food threshold is 25, 35 from level 4 and 45 from level 7, only the highest tier applying |
| CollectResources.Missing | Client/ai/strategy/state/collect_resources.py:152-163 | the missing list is never longer than the requirements |
| CollectResources.Prioritized | Client/ai/strategy/state/collect_resources.py:197-213 | the priority order holds exactly the kinds of the rarity order that are missing |
| CollectResources.NonOrigin | Client/ai/strategy/state/collect_resources.py:178-186 | the candidate positions are exactly the visible ones other than (0, 0) |
| CollectResources.Closest | Client/ai/strategy/state/collect_resources.py:186-188 | min by Manhattan distance returns a candidate no farther than any other |
| CollectResources.FirstPresent | Client/ai/strategy/state/collect_resources.py:140-150 | a kind found on a tile is missing and lies there with a positive count |
| CollectResources.Planned | Client/ai/strategy/state/collect_resources.py:215-229 | the plan is the pathfinder's commands cut to at most ten, kept whole when shorter |
| CollectResources.Tick | Client/ai/strategy/state/collect_resources.py:50-106 | with food at or below the threshold execute returns no action and changes nothing; no tick touches the blacklist, the attempts, the statistics or the stuck counter |
| CollectResources.Acted | Client/ai/strategy/state/collect_resources.py:75-106 | the steps after the refreshes change neither the blacklist, the attempts, the statistics, the context nor the inventory clock |
| CollectResources.OnEvent | Client/ai/strategy/state/collect_resources.py:325-347 | FOOD_EMERGENCY gives Emergency; FOOD_LOW gives CollectFood exactly when food is at or below the threshold; RESOURCES_COLLECTED gives Explore exactly when nothing is missing |
| CollectResources.GetMissingResources | Client/ai/strategy/state/collect_resources.py:152-163 | the loop over the requirements builds the missing list |
| CollectResources.NeededResourceOnTile | Client/ai/strategy/state/collect_resources.py:140-150 | the loop returns the first missing kind on a tile at (0, 0) |
| CollectResources.FindPriorityTarget | Client/ai/strategy/state/collect_resources.py:165-195 | the loop returns the target of the first eligible kind in rarity order |
| CollectResources.CollectResourcesState.constructor | Client/ai/strategy/state/collect_resources.py:26-48 | a new state has no target, plan, priority, attempts, blacklist or statistics, and both clocks at now |
| CollectResources.CollectResourcesState.Execute | Client/ai/strategy/state/collect_resources.py:50-106 | execute changes the fields and answers as Tick says |
| CollectResources.CollectResourcesState.Act | Client/ai/strategy/state/collect_resources.py:75-106 | the steps after the refreshes change the fields and answer as Acted says |
| CollectResources.CollectResourcesState.OnCommandSuccess | Client/ai/strategy/state/collect_resources.py:269-296 | on_command_success changes the fields as Succeeded says and names the unit taken out of the vision |
| CollectResources.CollectResourcesState.OnCommandFailed | Client/ai/strategy/state/collect_resources.py:298-323 | on_command_failed changes the fields as Failed says |
| CollectResources.CollectResourcesState.OnEnter | Client/ai/strategy/state/collect_resources.py:349-364 | on_enter resets target, plan, attempts, blacklist and statistics and requests a look |
| CollectResources.CollectResourcesState.OnExit | Client/ai/strategy/state/collect_resources.py:366-374 | on_exit clears target, plan and blacklist |
| CollectResources.MissingExact | Client/ai/strategy/state/collect_resources.py:152-163 | the missing list holds exactly the unmet requirements, each with its shortfall |
| CollectResources.AllCollected | Client/ai/strategy/state/collect_resources.py:258-267 | everything is collected exactly when every requirement is met |
| CollectResources.FindTargetPosition | Client/ai/strategy/state/collect_resources.py:175-193 | a target found is of a kind not skipped, at a closest visible position other than (0, 0) |
| CollectResources.PrioritizedSorted | Client/ai/strategy/state/collect_resources.py:197-213 | filtering the rarity order keeps it in rarity order |
| CollectResources.RaritySorted | Client/ai/strategy/state/collect_resources.py:197-213 | the rarity order lists Thystame, Phiras, Mendiane, Sibur, Deraumere, Linemate in strictly increasing rank |
| CollectResources.FirstEligible | Client/ai/strategy/state/collect_resources.py:175-195 | the search takes the eligible kind of least rank, and none exactly when no kind is eligible |
| CollectResources.TargetByRarity | Client/ai/strategy/state/collect_resources.py:165-213 | a target is of a missing, non-blacklisted kind at a closest position other than (0, 0), and no rarer missing kind was eligible; none exactly when no kind was |
| CollectResources.NeededOnTileFound | Client/ai/strategy/state/collect_resources.py:140-150 | a kind found on the player's tile is missing and lies on a tile at (0, 0) |
| CollectResources.TakeOnlyWhatIsMissing | Client/ai/strategy/state/collect_resources.py:75-79 | a tick takes only a missing kind that the vision shows on the player's tile, and changes no field doing so |
| CollectResources.InventoryCadence | Client/ai/strategy/state/collect_resources.py:63-124 | the inventory is asked for exactly when food allows and the flag is set or 12 s have passed, and then the clock and flag are reset |
| CollectResources.PlanStaysShort | Client/ai/strategy/state/collect_resources.py:88-229 | a plan of at most ten commands stays so through a tick |
| CollectResources.OnTileTakeUncredited | Client/ai/strategy/state/collect_resources.py:76-289 | the on-tile take leaves the priority kind unset, so its success credits nothing |
| CollectResources.BlacklistAfterTwoFailures | Client/ai/strategy/state/collect_resources.py:298-310 | a kind is blacklisted only by a failed take of it as the priority kind, from the second attempt on |
| CollectResources.TakeSuccessCredits | Client/ai/strategy/state/collect_resources.py:271-289 | a credited take counts one more of the kind, un-blacklists it, and clears target, plan, attempts and priority |
| CollectResources.StuckNeverReset | Client/ai/strategy/state/collect_resources.py:291-323 | no callback lowers the stuck counter; only a failed move raises it |
| CollectResources.EnterIdempotent | Client/ai/strategy/state/collect_resources.py:349-364 | entering twice is entering once |
| Reproduction.MinFood | Client/ai/strategy/state/reproduction.py:103-111 | the food minimum is 13, or int(13 x 1.5) = 19 from level 3 |
| Reproduction.Created | Client/ai/strategy/state/reproduction.py:70-101 | after _create_new_agent the agent counts as created, creation is no longer pending, the stage is 4 and a look is requested, whether or not an agent thread was found; only a found thread spawns an agent |
| Reproduction.ForkSequence | Client/ai/strategy/state/reproduction.py:113-164 | the fork sequence never spawns an agent nor touches the creation flag, the attempts or the start time |
| Reproduction.Tick | Client/ai/strategy/state/reproduction.py:44-68 | execute spawns only a pending creation with an agent thread, never undoes a creation, and leaves attempts, start time and needs_repro alone |
| Reproduction.Succeeded | Client/ai/strategy/state/reproduction.py:174-184 | a success changes nothing but after a fork; the creation flag and the attempts are kept |
| Reproduction.Failed | Client/ai/strategy/state/reproduction.py:186-208 | a failure changes nothing but after connect_nbr or fork, and never touches the creation flags |
| Reproduction.OnEvent | Client/ai/strategy/state/reproduction.py:210-224 | FOOD_EMERGENCY gives Emergency; FOOD_LOW gives CollectFood exactly when food is at or below the minimum; nothing gives Explore |
| Reproduction.Entered | Client/ai/strategy/state/reproduction.py:230-247 | on_enter leaves stage 0, reproduction incomplete and requested |
| Reproduction.Exited | Client/ai/strategy/state/reproduction.py:249-261 | on_exit withdraws the request |
| Reproduction.ReproductionState.constructor | Client/ai/strategy/state/reproduction.py:25-42 | a new state has the food minimum of its level, stage 0, no agent, no attempt, and the start time now |
| Reproduction.ReproductionState.Execute | Client/ai/strategy/state/reproduction.py:44-68 | execute changes the fields, answers and spawns as Tick says |
| Reproduction.ReproductionState.CreateNewAgent | Client/ai/strategy/state/reproduction.py:70-101 | _create_new_agent changes the fields as Created says |
| Reproduction.ReproductionState.HandleForkSequence | Client/ai/strategy/state/reproduction.py:113-164 | _handle_fork_sequence changes the fields and answers as ForkSequence says |
| Reproduction.ReproductionState.OnCommandSuccess | Client/ai/strategy/state/reproduction.py:174-184 | on_command_success changes the fields as Succeeded says |
| Reproduction.ReproductionState.OnCommandFailed | Client/ai/strategy/state/reproduction.py:186-208 | on_command_failed changes the fields as Failed says |
| Reproduction.ReproductionState.OnEnter | Client/ai/strategy/state/reproduction.py:230-247 | on_enter changes the fields as Entered says |
| Reproduction.ReproductionState.OnExit | Client/ai/strategy/state/reproduction.py:249-261 | on_exit changes the fields as Exited says |
| Reproduction.FoodGuard | Client/ai/strategy/state/reproduction.py:52-55 | while food is below the minimum execute sends nothing and changes nothing |
| Reproduction.TimeoutKeepsStage | Client/ai/strategy/state/reproduction.py:58-60 | past 30 s execute sends nothing and leaves every field, the stage included, as it was |
| Reproduction.ForkOnlyWithoutSlots | Client/ai/strategy/state/reproduction.py:122-147 | fork is sent exactly when the guards pass, no creation is pending, the stage is 1 and the last connect_nbr reported no free slot |
| Reproduction.ConnectNbrFromStageZero | Client/ai/strategy/state/reproduction.py:117-120 | connect_nbr is sent exactly when the guards pass, no creation is pending and the stage is 0, and the stage becomes 1 |
| Reproduction.StageOneOutcomes | Client/ai/strategy/state/reproduction.py:122-147 | at stage 1 zero slots lead to a fork and stage 2, free slots to a pending creation and stage 3, a negative count to stage 4 |
| Reproduction.StagePreserved | Client/ai/strategy/state/reproduction.py:113-208 | every step keeps the stage between 0 and 4 |
| Reproduction.RetryCap | Client/ai/strategy/state/reproduction.py:186-208 | a failed connect_nbr or fork counts one attempt; from the second on the stage is 4, before that 0 |
| Reproduction.CompletedByCreation | Client/ai/strategy/state/reproduction.py:63-65 | a pending creation completes the reproduction, and without an earlier creation nothing else does |
| Reproduction.RunSpawns | Client/ai/strategy/state/reproduction.py:63-101 | a run of ticks and callbacks spawns no agent once one was created, and at most one before |
| Reproduction.SpawnAtMostOncePerActivation | Client/ai/strategy/state/reproduction.py:44-247 | between on_enter and the next on_enter at most one agent is spawned |
| Strategy.MoveCommand | Client/ai/strategy/state/collect_resources.py:231-241 | _execute_movement_command sends Forward, Left and Right as that command and nothing for any other kind |
| GuiGameState.CopyPlayer | GUI/src/Game/GameState.hpp:112 | the copy push_back stores is a new object that agrees with the player on every field |
| GuiGameState.GameState.constructor | GUI/src/Game/GameState.hpp:25 | a new state has frequency 100, no map, and no team, egg or player |
| GuiGameState.GameState.SetFrequency | GUI/src/Game/GameState.hpp:36 | getFrequency returns the frequency set |
| GuiGameState.GameState.InitMap | GUI/src/Game/GameState.hpp:42 | a new width x height map of empty tiles replaces the old one |
| GuiGameState.GameState.GetTile | GUI/src/Game/GameState.hpp:66 | getTile is the map's tile at (x, y) |
| GuiGameState.GameState.UpdateTile | GUI/src/Game/GameState.hpp:90 | only the tile at (x, y) changes, and getTile then returns the new one |
| GuiGameState.GameState.AddTeam | GUI/src/Game/GameState.hpp:96 | the team list grows by the name at its end |
| GuiGameState.GameState.AddEgg | GUI/src/Game/GameState.hpp:105-106 | the egg list grows by a new egg with these id, father and position at its end; the others stay |
| GuiGameState.GameState.AddPlayer | GUI/src/Game/GameState.hpp:112 | the player list grows by a distinct copy of the player at its end; the others stay |
| Protocol.ToInt32 | GUI/src/Network/Protocol.cpp:311-321 | a size_t value converted to int lies in the int range and keeps every value that fits |
| Protocol.OrientationValueIsPredecessor | GUI/src/Network/Protocol.cpp:313-321 | whatever the size_t and int wrap-arounds, a wire orientation code arrives as the code minus one |
| Protocol.Direction | GUI/src/Network/Protocol.cpp:319-323 | an enumeration value names a direction exactly when it is 0 to 3, and then the direction with that index |
| Protocol.WireCodes | GUI/src/Network/Protocol.cpp:304-353 | the wire codes 1 to 4 arrive as the four directions, and 0 names none |
| Protocol.CountsOf | GUI/src/Network/Protocol.cpp:263-270 | each of the seven counts read into size_t lands in its own resource kind |
| Protocol.LineAfterBlank | GUI/src/Network/Protocol.cpp:470-495 | the text the corrected broadcast handler keeps holds no newline |
| Protocol.BoundHandlersCover | GUI/src/Network/Protocol.cpp:40-68 | initHandlers binds a handler to every enumerator except MAP_CONTENT and SIZE |
| Protocol.EveryCodeButMctHandled | GUI/src/Network/Protocol.cpp:23-33 | every code string finds a bound handler except "mct", whose enumerator has none |
| Protocol.ReadCounts | GUI/src/Network/Protocol.cpp:263-270 | the seven-count loop either reads all seven, in kind order, or stops at the first failed read with the whole run failed |
| Protocol.Protocol.constructor | GUI/src/Network/Protocol.cpp:10-34 | a new protocol is not authenticated, has sent the renderer nothing and holds the bound handler table |
| Protocol.Protocol.InitHandlers | GUI/src/Network/Protocol.cpp:40-68 | the handler table becomes the bound handlers, however often it runs |
| Protocol.Protocol.Handle | GUI/src/Network/Protocol.cpp:231-723 | the bound handler of a code changes the renderer log, the team list, the map and the tiles exactly as its parser says and nothing else |
| Protocol.Protocol.HandleRendererOnly | GUI/src/Network/Protocol.cpp:339-695 | the handlers that only forward what they read append their renderer calls and change no game state |
| Protocol.Protocol.Receive | GUI/src/Network/Protocol.cpp:23-33 | the message callback runs a bound handler; a code without one gets an empty entry inserted, whose call throws and is caught, so nothing else changes |
| Protocol.Protocol.OnServerMessage | GUI/src/Network/Protocol.cpp:70-79 | onServerMessage throws exactly for an empty entry, runs a bound handler as Handle says, and otherwise only logs |
| Protocol.Protocol.HandleMapSize | GUI/src/Network/Protocol.cpp:231-242 | a fresh empty map of the size read replaces the old one and the renderer gets init |
| Protocol.Protocol.HandleTileContent | GUI/src/Network/Protocol.cpp:254-273 | the tile read replaces the one at (x, y) only when every count was read; otherwise the map is unchanged |
| Protocol.Protocol.HandleTeamNames | GUI/src/Network/Protocol.cpp:284-293 | the first word of the parameters, or "", joins the end of the team list |
| Protocol.Protocol.HandlePlayerInventory | GUI/src/Network/Protocol.cpp:390-424 | the renderer gets the inventory only when id, place and all seven counts were read, and nothing otherwise |
| Protocol.Protocol.HandleIncantationStart | GUI/src/Network/Protocol.cpp:496-519 | the renderer gets the tile, the level and every id that follows, in order |
| Protocol.Protocol.HandleTimeUnit | GUI/src/Network/Protocol.cpp:698-709 | the renderer is told the time unit only when it differs from the stored frequency |
| ProtocolStream.Next | GUI/src/Network/Protocol.cpp:237 | one stream read yields a number exactly when the stream stays good, consumes text when it does, and leaves the variable unset on a failed stream |
| ProtocolStream.NextReadInt | GUI/src/Network/Protocol.cpp:237 | a read succeeds exactly when the text starts with a number after blanks, and then yields that number and the rest |
| ProtocolStream.Reads | GUI/src/Network/Protocol.cpp:260 | n successive reads fill n slots |
| ProtocolStream.ReadsOfReadInts | GUI/src/Network/Protocol.cpp:317 | the stream is still good after n reads exactly when n numbers can be read, and then the slots hold those numbers |
| ProtocolStream.Slotted | GUI/src/Network/Protocol.cpp:317 | numbers read fill their slots with themselves, and every slot holds a value |
| ProtocolStream.ReadIds | GUI/src/Network/Protocol.cpp:510-514 | the id loop collects every number up to the first read that fails |
| ProtocolStream.RemoveSharp | GUI/src/Network/Protocol.cpp:725-733 | removeSharp erases every '#' and keeps every other character in order |
| ProtocolRoundTrip.ReadsNumbers | GUI/src/Network/Protocol.cpp:237 | numbers the stream reads without failing fill their slots with themselves |
| ProtocolRoundTrip.CountsOfNumbers | GUI/src/Network/Protocol.cpp:263-270 | seven quantities that fit a size_t are read back as the tile itself |
| ProtocolRoundTrip.SharpDropped | GUI/src/Network/Protocol.cpp:725-733 | removing '#' from " #" and a text without '#' leaves the blank and the text |
| ProtocolRoundTrip.TaggedParams | GUI/src/Network/Protocol.cpp:306-308 | after removing '#', the parameters of a "xyz #" line are a blank and the body |
| ProtocolRoundTrip.MszRoundTrip | GUI/src/Network/Protocol.cpp:231-242 | the map size the server announces is the size the client builds its map with, and the renderer gets init |
| ProtocolRoundTrip.BctRoundTrip | GUI/src/Network/Protocol.cpp:254-273 | the client reads back the place and the seven quantities of a server tile line |
| ProtocolRoundTrip.BctUpdatesTile | GUI/src/Network/Protocol.cpp:254-273 | a tile line for a place on the client's map replaces that tile and no other |
| ProtocolRoundTrip.SgtRoundTrip | GUI/src/Network/Protocol.cpp:698-709 | the time unit the server reports is read back, and the renderer hears it only when it changed |
| ProtocolRoundTrip.TimeUnitDispatch | GUI/src/Network/Protocol.cpp:61-62 | both time unit codes are bound to handleTimeUnit |
| ProtocolRoundTrip.PinRoundTrip | GUI/src/Network/Protocol.cpp:390-424 | the inventory the server reports reaches the renderer for the player it names |
| ProtocolRoundTrip.PpoRoundTrip | GUI/src/Network/Protocol.cpp:339-363 | a ppo line reaches the renderer as the id, the place and the code minus one |
| ProtocolRoundTrip.CodeDirection | GUI/src/Network/Protocol.cpp:321 | the protocol's codes 1 to 4 arrive as the direction they encode |
| ProtocolRoundTrip.CyclicCodeDirection | GUI/src/Network/Protocol.cpp:321 | the cyclic codes arrive as their direction except West, whose 0 arrives as -1 and names none |
| ProtocolRoundTrip.PpoTextRoundTrip | GUI/src/Network/Protocol.cpp:339-363 | the server's movement report reaches the client with the player's place and its own direction |
| ProtocolRoundTrip.PpoAsWrittenRoundTrip | GUI/src/Network/Protocol.cpp:339-363 | the ppo reply as written places the player looked up but turns it to the requester's direction, or none when the requester faces West |
| ProtocolRoundTrip.PnwParams | GUI/src/Network/Protocol.cpp:306-310 | after removing '#', a pnw line's parameters are a blank, the five numbers, a blank, the team and the newline |
| ProtocolRoundTrip.PnwReads | GUI/src/Network/Protocol.cpp:317 | the five numbers of a pnw line are read and the stream stops before the team name |
| ProtocolRoundTrip.NewPlayerOf | GUI/src/Network/Protocol.cpp:304-328 | five good reads and a team word give the renderer a new player with those values |
| ProtocolRoundTrip.PnwRoundTrip | GUI/src/Network/Protocol.cpp:304-328 | a pnw line reaches the renderer as a new player with the values written and the whole team name |
| ProtocolRoundTrip.PnwTextRoundTrip | GUI/src/Network/Protocol.cpp:304-328 | the protocol's pnw line makes the client add the player facing its own direction |
| ProtocolRoundTrip.PnwAsWrittenRoundTrip | GUI/src/Network/Protocol.cpp:304-328 | the pnw line as written adds the player with its direction, except that West arrives as -1, which names none |
| ProtocolRoundTrip.ReadAllOfLine | GUI/src/Network/Protocol.cpp:510-511 | reading every id of a run of numbers ended by a newline gives the run back |
| ProtocolRoundTrip.IdListUnsharped | GUI/src/Network/Protocol.cpp:498-500 | removing '#' from the participant tags leaves the ids as a run of numbers |
| ProtocolRoundTrip.PicLayout | GUI/src/Network/Protocol.cpp:496-519 | a pic line is its three numbers, the participant tags and the newline after the code |
| ProtocolRoundTrip.PicParams | GUI/src/Network/Protocol.cpp:498-506 | after removing '#', a pic line's parameters are the three numbers, the ids and the newline |
| ProtocolRoundTrip.PicRoundTrip | GUI/src/Network/Protocol.cpp:496-519 | the protocol's pic line starts the incantation on the tile, at the level, with every participant in order |
| ProtocolRoundTrip.PicAsWrittenLayout | GUI/src/Network/Protocol.cpp:496-519 | the pic line as written is its three numbers, the byte tags and the newline |
| ProtocolRoundTrip.PicAsWrittenLosesIds | GUI/src/Network/Protocol.cpp:510-511 | the id 12 written as a byte is a form feed the client skips, so the incantation starts with no participant, where the protocol's line keeps it |
| ProtocolRoundTrip.PbcLayout | GUI/src/Network/Protocol.cpp:470-495 | a pbc line is " #", the id, a blank, the message and the newline after the code |
| ProtocolRoundTrip.PbcParams | GUI/src/Network/Protocol.cpp:470-495 | after removing '#', a pbc line's parameters are a blank, the id, a blank, the message without its '#' and the newline |
| ProtocolRoundTrip.BroadcastOf | GUI/src/Network/Protocol.cpp:470-495 | an id read that leaves the rest gives the renderer the id and the next word |
| ProtocolRoundTrip.BroadcastRoundTrip | GUI/src/Network/Protocol.cpp:470-495 | the renderer gets the sender's id and only the first word of the message, without its '#' |
| ProtocolRoundTrip.FirstWord | GUI/src/Network/Protocol.cpp:470-495 | the first word of a word, a blank and more is that word |
| ProtocolRoundTrip.BroadcastKeepsFirstWord | GUI/src/Network/Protocol.cpp:470-495 | a message of a word, a blank and more reaches the renderer as that word alone |
| ProtocolRoundTrip.LineOfMessage | GUI/src/Network/Protocol.cpp:470-495 | the rest of the line after a message without a newline is the message |
| ProtocolRoundTrip.BroadcastCorrectedRoundTrip | GUI/src/Network/Protocol.cpp:470-495 | the corrected handler gives the renderer the whole message, blanks and '#' included |
| MenuMacros.SectionIndex | GUI/src/Renderer/Raylib/Menu/MenuMacros.hpp:35-41 | the sections are numbered 0 to 2, and NONE, number 2, is the count of real sections |
| MenuMacros.SectionAt | GUI/src/Renderer/Raylib/Menu/MenuMacros.hpp:35-39 | each number 0 to 2 names the section with that number |
| MenuMacros.NextSection | GUI/src/Renderer/Raylib/Menu/MenuMacros.hpp:41-46 | the next section cycles modulo MENU_MOD_SECTION_SIZE and never reaches NONE |
| MenuMacros.NextSectionCycles | GUI/src/Renderer/Raylib/Menu/MenuMacros.hpp:41-46 | pressing the section key twice comes back to the same real section |
| GameMenu.Clamp | GUI/src/Renderer/Raylib/Menu/GameMenu.cpp:163-168 | the frequency clamp lands in [1, 1000] and keeps any value already there |
| GameMenu.ApplyModifier | GUI/src/Renderer/Raylib/Menu/GameMenu.cpp:158-169 | a modifier key is skipped exactly when it pushes past the bound the frequency already sits on; otherwise the result is in [1, 1000] |
| GameMenu.ApplyModifierClamps | GUI/src/Renderer/Raylib/Menu/GameMenu.cpp:158-169 | within the bounds, an applied key gives the clamped sum and a skipped key leaves the frequency where the clamp would |
| GameMenu.FreqInputInRange | GUI/src/Renderer/Raylib/Menu/GameMenu.cpp:155-172 | a frequency in [1, 1000] stays there whatever keys are released, and it changes only when the changed flag is raised |
| GameMenu.FreqInputChangedInRange | GUI/src/Renderer/Raylib/Menu/GameMenu.cpp:155-172 | once any key has been applied the frequency is in [1, 1000], wherever it started |
| GameMenu.LeftWrap | GUI/src/Renderer/Raylib/Menu/GameMenu.cpp:187-193 | LEFT past the first card is meant to land on the start of the last page: within the list and no more than a page from its end |
| GameMenu.LeftWrapDiffersOnFullPages | GUI/src/Renderer/Raylib/Menu/GameMenu.cpp:187-193 | the wrap as written agrees with the intended one unless the players fill whole pages, where it lands one card further |
| GameMenu.PlayersPage | GUI/src/Renderer/Raylib/Menu/GameMenu.cpp:174-199 | with players the page size stays in [1, 6]; without any the paging is unchanged |
| GameMenu.PlayersPageIndexBounded | GUI/src/Renderer/Raylib/Menu/GameMenu.cpp:174-199 | paging keeps the first-card index within [0, number of players] |
| GameMenu.ShownIds | GUI/src/Renderer/Raylib/Menu/GameMenu.cpp:332-378 | the cards drawn are consecutive players from the first-card index, at most a page, never past the end |
| GameMenu.LeftFromOnlyPlayerShowsNothing | GUI/src/Renderer/Raylib/Menu/GameMenu.cpp:187-193 | with one player shown one at a time, LEFT lands on index 1 and no card is drawn |
| GameMenu.LeftWrapShowsPlayers | GUI/src/Renderer/Raylib/Menu/GameMenu.cpp:187-193 | the intended wrap always lands on a page that shows at least one card |
| GameMenu.RemoveLastPlayerDividesByZero | GUI/src/Renderer/Raylib/Menu/GameMenu.cpp:132-133 | removing the only player at index 0 reaches the remainder by zero |
| GameMenu.RemoveFirst | GUI/src/Renderer/Raylib/Menu/GameMenu.cpp:125-130 | only the first occurrence of the id goes: the list loses exactly one copy if it held the id and is unchanged otherwise |
| GameMenu.GameMenu.constructor | GUI/src/Renderer/Raylib/Menu/GameMenu.cpp:10-19 | a new menu has font size 20, frequency 0, no change pending, everything displayed, no player and no broadcast |
| GameMenu.GameMenu.Init | GUI/src/Renderer/Raylib/Menu/GameMenu.cpp:21-45 | init takes the game state's frequency, starts the arrows on the frequency, and binds H, B and P to hidden panels |
| GameMenu.GameMenu.HasFrequencyChanged | GUI/src/Renderer/Raylib/Menu/GameMenu.cpp:47-54 | the change flag is reported once and then cleared |
| GameMenu.GameMenu.HandleInput | GUI/src/Renderer/Raylib/Menu/GameMenu.cpp:56-73 | released panel keys flip their panels, F1 flips the display, F moves to the next section, and that section's handler alone changes frequency or paging |
| GameMenu.GameMenu.ToggleMenus | GUI/src/Renderer/Raylib/Menu/GameMenu.cpp:61-70 | the panel, display and section toggles of handleInput |
| GameMenu.GameMenu.HandleFreqInput | GUI/src/Renderer/Raylib/Menu/GameMenu.cpp:155-172 | each released modifier key, in ascending key order, is applied or skipped as FreqInput says |
| GameMenu.GameMenu.HandlePlayersInput | GUI/src/Renderer/Raylib/Menu/GameMenu.cpp:174-199 | the page size and first card follow the first released arrow key as PlayersPage says, and the paging invariant holds |
| GameMenu.GameMenu.AddPlayer | GUI/src/Renderer/Raylib/Menu/GameMenu.cpp:100-108 | the id joins the end; the first player opens a one-card page at index 0 |
| GameMenu.GameMenu.RemovePlayer | GUI/src/Renderer/Raylib/Menu/GameMenu.cpp:123-139 | the first occurrence goes, an index past the end is reduced modulo the new size, and an empty list resets the paging to -1 and 0 |
| GameMenu.GameMenu.PlayerBroadcast | GUI/src/Renderer/Raylib/Menu/GameMenu.cpp:110-121 | the "Player id: message" line joins the history, which keeps the last ten |
| Menu.BroadcastLine | GUI/src/Renderer/Raylib/Menu/Menu.cpp:75-87 | the line is "Player " and the id before the whole message, which ends it |
| Menu.BroadcastLineInjective | GUI/src/Renderer/Raylib/Menu/Menu.cpp:75-87 | two equal broadcast lines come from the same id with the same message |
| Menu.PushBounded | GUI/src/Renderer/Raylib/Menu/Menu.cpp:62-73 | the new line ends the history; below ten lines it is appended, otherwise the oldest line goes |
| Menu.LastTen | GUI/src/Renderer/Raylib/Menu/Menu.cpp:69-72 | the last ten lines hold at most ten |
| Menu.LastTenDropOldest | GUI/src/Renderer/Raylib/Menu/Menu.cpp:69-72 | dropping the oldest of more than ten lines keeps the last ten |
| Menu.PushAllKeepsLastTen | GUI/src/Renderer/Raylib/Menu/Menu.cpp:62-73 | from at most ten lines, the history always holds the last ten lines ever pushed, oldest first |
| Menu.Toggled | GUI/src/Renderer/Raylib/Menu/Menu.cpp:39-42 | every panel whose key is hit flips, a panel not yet stored reads as off, and every other panel keeps its state |
| Menu.ToggledTwice | GUI/src/Renderer/Raylib/Menu/Menu.cpp:39-42 | the same keys hit on two frames leave every registered panel as it was |
| Menu.Menu.constructor | GUI/src/Renderer/Raylib/Menu/Menu.cpp:10-13 | a new menu has font size 20, no panel and no broadcast |
| Menu.Menu.Init | GUI/src/Renderer/Raylib/Menu/Menu.cpp:15-32 | init binds B and H to two hidden panels and records the sample broadcast "Player 1: Hello World!" |
| Menu.Menu.HandleInput | GUI/src/Renderer/Raylib/Menu/Menu.cpp:34-43 | a panel flips on the frame its key goes down |
| Menu.Menu.PlayerBroadcast | GUI/src/Renderer/Raylib/Menu/Menu.cpp:62-73 | the formatted line joins the bounded history |
| PauseMenu.PauseMenu.constructor | GUI/src/Renderer/Raylib/Menu/PauseMenu.cpp:12-21 | a new pause menu is hidden, on the main page, on button 0 and theme 0, with ESCAPE as its key |
| PauseMenu.PauseMenu.Init | GUI/src/Renderer/Raylib/Menu/PauseMenu.cpp:29-39 | init loads the CLASSIC and POKEMON themes |
| PauseMenu.PauseMenu.HandleInput | GUI/src/Renderer/Raylib/Menu/PauseMenu.cpp:41-80 | ESCAPE flips the display and nothing else; a hidden menu ignores every key; the main page moves and confirms as MainPageOutcome says; the theme page steps through the themes and goes back on a confirmation; the selections stay in range |
| PauseMenu.PauseMenu.MainPage | GUI/src/Renderer/Raylib/Menu/PauseMenu.cpp:50-62 | UP then DOWN move the button round the three, then ENTER or SPACE hides the menu, opens the theme page or quits |
| PauseMenu.PauseMenu.ThemePage | GUI/src/Renderer/Raylib/Menu/PauseMenu.cpp:63-76 | LEFT then RIGHT move round the themes, and ESCAPE or a confirmation goes back to the main page |
| PauseMenu.ButtonStep | GUI/src/Renderer/Raylib/Menu/PauseMenu.cpp:51-55 | the button stays among the three, and without UP or DOWN it does not move |
| PauseMenu.ThemeStep | GUI/src/Renderer/Raylib/Menu/PauseMenu.cpp:64-69 | the theme stays among those loaded, and LEFT with RIGHT, or neither, leaves it in place |
| PauseMenu.UpThenDownCancel | GUI/src/Renderer/Raylib/Menu/PauseMenu.cpp:51-55 | UP and DOWN on the same frame leave the selection where it was |
| InputManager.Transition | GUI/src/Renderer/Raylib/Menu/InputManager.cpp:79-92 | a key down reads PRESSED or HELD, a key up RELEASED or NONE, and HELD or RELEASED exactly when it was down the frame before |
| InputManager.PressedForOneFrame | GUI/src/Renderer/Raylib/Menu/InputManager.cpp:84-86 | a key kept down reads PRESSED on its first frame only |
| InputManager.ReleasedForOneFrame | GUI/src/Renderer/Raylib/Menu/InputManager.cpp:87-89 | a key let go reads RELEASED on its first frame only |
| InputManager.Stepped | GUI/src/Renderer/Raylib/Menu/InputManager.cpp:79-92 | _updateState steps every tracked key and adds or drops none |
| InputManager.Registered | GUI/src/Renderer/Raylib/Menu/InputManager.cpp:22-27 | a key pressed this frame and not tracked yet is added as PRESSED; tracked keys keep their state |
| InputManager.StepAll | GUI/src/Renderer/Raylib/Menu/InputManager.cpp:79-92 | the loop over the state map applies the transition to every entry |
| InputManager.InputManager.constructor | GUI/src/Renderer/Raylib/Menu/InputManager.hpp:95-97 | a new manager tracks no key and no button |
| InputManager.InputManager.Update | GUI/src/Renderer/Raylib/Menu/InputManager.cpp:17-35 | every tracked key and button is stepped, then the keys pressed this frame and not tracked yet join as PRESSED |
| InputManager.InputManager.GetKeyState | GUI/src/Renderer/Raylib/Menu/InputManager.cpp:43-48 | the tracked state of a key, NONE for a key never seen |
| InputManager.InputManager.IsKeyPressed | GUI/src/Renderer/Raylib/Menu/InputManager.cpp:50-53 | a key reads pressed exactly when it is tracked as PRESSED |
| InputManager.InputManager.IsKeyReleased | GUI/src/Renderer/Raylib/Menu/InputManager.hpp:55 | a key reads released exactly when it is tracked as RELEASED |
| InputManager.InputManager.PressedKeys | GUI/src/Renderer/Raylib/Menu/InputManager.cpp:50-53 | the keys that went down this frame are exactly those that read pressed |
| InputManager.InputManager.ReleasedKeys | GUI/src/Renderer/Raylib/Menu/InputManager.hpp:55 | the keys that came up this frame are exactly those that read released |
| InputManager.InputManager.GetMouseButtonState | GUI/src/Renderer/Raylib/Menu/InputManager.cpp:61-66 | the tracked state of a button, NONE for a button never seen |
| InputManager.InputManager.IsMouseButtonPressed | GUI/src/Renderer/Raylib/Menu/InputManager.cpp:74-77 | a button reads pressed exactly when it is tracked as PRESSED |
| InputManager.NewKeyReadsPressed | GUI/src/Renderer/Raylib/Menu/InputManager.cpp:22-27 | a key first reported this frame reads PRESSED after update |
| InputManager.ButtonsNeverTracked | GUI/src/Renderer/Raylib/Menu/InputManager.cpp:17-35 | nothing adds a mouse button, so the button map stays empty |
| MapRendererModel.FirstIndex | GUI/src/Renderer/Raylib/Map/MapRenderer.cpp:517-529 | the first position holding the id: it holds the id and none before it does |
| MapRendererModel.Filtered | GUI/src/Renderer/Raylib/Map/MapRenderer.cpp:477-495 | the rebuilt queue is no longer than the old one and holds exactly the actions whose kind is kept |
| MapRendererModel.OtherPlayers | GUI/src/Renderer/Raylib/Map/MapRenderer.cpp:461-470 | remove_if keeps exactly the animation actions of the other players |
| MapRendererModel.Advanced | GUI/src/Renderer/Raylib/Map/MapRenderer.cpp:627-637 | a frame starts the front action and pops it when it ends; the actions behind it are untouched |
| MapRendererModel.MapRenderer.constructor | GUI/src/Renderer/Raylib/Map/MapRenderer.cpp:14-27 | a new renderer has no model, no queue and no animation action |
| MapRendererModel.MapRenderer.AddPlayer | GUI/src/Renderer/Raylib/Map/MapRenderer.cpp:115-124 | the player model joins the end of the list; nothing else changes |
| MapRendererModel.MapRenderer.AddEgg | GUI/src/Renderer/Raylib/Map/MapRenderer.cpp:104-113 | the egg model joins the end of the list; nothing else changes |
| MapRendererModel.MapRenderer.RemoveEgg | GUI/src/Renderer/Raylib/Map/MapRenderer.cpp:432-440 | only the first egg model with the id goes; nothing else changes |
| MapRendererModel.MapRenderer.RemovePlayer | GUI/src/Renderer/Raylib/Map/MapRenderer.cpp:446-455 | the first player model with the id goes together with its queue and animation actions; without such a model nothing changes |
| MapRendererModel.MapRenderer.RemoveAllActions | GUI/src/Renderer/Raylib/Map/MapRenderer.cpp:457-471 | the player's queue is erased and its animation actions removed; models stay |
| MapRendererModel.MapRenderer.RemoveAllTranslations | GUI/src/Renderer/Raylib/Map/MapRenderer.cpp:477-491 | the player's queue keeps, in order, every action but FORWARD and EXPULSION; other queues stay |
| MapRendererModel.MapRenderer.RemoveAllRotations | GUI/src/Renderer/Raylib/Map/MapRenderer.cpp:497-511 | the player's queue keeps, in order, every action but ROTATION; other queues stay |
| MapRendererModel.MapRenderer.Rebuild | GUI/src/Renderer/Raylib/Map/MapRenderer.cpp:479-490 | draining the queue front first into a new queue keeps the actions of the kept kinds, in order |
| MapRendererModel.MapRenderer.GetPlayer | GUI/src/Renderer/Raylib/Map/MapRenderer.cpp:517-529 | the first player model with the id is found exactly when there is one; otherwise "Player id not found" is thrown |
| MapRendererModel.MapRenderer.GetEgg | GUI/src/Renderer/Raylib/Map/MapRenderer.cpp:545-557 | the first egg model with the id is found exactly when there is one; otherwise "Egg id not found" is thrown |
| MapRendererModel.MapRenderer.UpdateActions | GUI/src/Renderer/Raylib/Map/MapRenderer.cpp:618-643 | the queues are visited in ascending player id, as std::map orders them; empty queues are erased and each other front action is started and popped when it ends; a front action of a player without a model throws at the first such queue visited, with only the earlier queues updated |
| MapRendererModel.RemoveFirstOne | GUI/src/Renderer/Raylib/Map/MapRenderer.cpp:432-455 | removal takes away exactly one model with the id when there is one, and nothing else |
| MapRendererModel.FilteredAppend | GUI/src/Renderer/Raylib/Map/MapRenderer.cpp:479-490 | filtering distributes over concatenation, so kept actions stay in order |
| MapRendererModel.FilteredCounts | GUI/src/Renderer/Raylib/Map/MapRenderer.cpp:479-490 | a kept kind keeps every copy of an action and a dropped kind keeps none |
| MapRendererModel.FilteredNothingToDrop | GUI/src/Renderer/Raylib/Map/MapRenderer.cpp:477-511 | a queue with nothing to drop comes back whole, so a second removal changes nothing |
| MapRendererModel.RemovalsCommute | GUI/src/Renderer/Raylib/Map/MapRenderer.cpp:477-511 | removing translations and removing rotations commute |
| MapRendererModel.FilteredTwice | GUI/src/Renderer/Raylib/Map/MapRenderer.cpp:477-511 | two removals in a row drop the union of their kinds |
| MapRendererModel.StepAllAt | GUI/src/Renderer/Raylib/Map/MapRenderer.cpp:618-643 | whatever the visiting order, a queue not visited is untouched, a visited empty one is erased and a visited non-empty one is advanced |
| MapRendererModel.UpdatePopsAtMostOne | GUI/src/Renderer/Raylib/Map/MapRenderer.cpp:618-643 | after an update every remaining queue lost at most its front action, and exactly it when that action ended |
| Scene.PositionUpdate | GUI/src/Renderer/Raylib/Scene/AScene.cpp:81-114 | a changed orientation is always a turn; a jump happens exactly when the orientation is kept and both coordinates change; a forward step keeps the orientation and changes one coordinate; an unchanged position and orientation makes no call |
| Scene.TurnClassified | GUI/src/Renderer/Raylib/Scene/AScene.cpp:85-91 | a new orientation a quarter turn counter-clockwise is a left turn, a quarter turn clockwise a right turn, the half turn a snap, wherever the player now stands |
| Scene.ForwardRecognised | GUI/src/Renderer/Raylib/Scene/AScene.cpp:92-109 | for a player on the map keeping its orientation, the update is a forward step exactly when the new tile is the wrapped tile ahead and differs from the old one |
| Scene.ExpulsionTarget | GUI/src/Renderer/Raylib/Scene/AScene.cpp:146-151 | the intended target lies on the map and is the tile the server pushes the player to |
| Scene.ExpulsionCalls | GUI/src/Renderer/Raylib/Scene/AScene.cpp:139-154 | the calls push exactly the other players on the expeller's tile, each to the target |
| Scene.PlayerExpulsion | GUI/src/Renderer/Raylib/Scene/AScene.cpp:130-156 | every other player listed on the expeller's tile, in list order, is drawn on the target the code computes: North as y + 1 and a -1 step wrapped through `size_t` |
| Scene.CorrectedExpulsion | GUI/src/Renderer/Raylib/Scene/AScene.cpp:130-156 | as intended, the calls draw exactly the other players on the expeller's tile, each on the tile the server pushes it to |
| Scene.ExpulsionEastAsIntended | GUI/src/Renderer/Raylib/Scene/AScene.cpp:146-148 | facing East, the expulsion as written draws the same calls as the corrected one |
| Scene.ExpulsionNorthReversed | GUI/src/Renderer/Raylib/Scene/AScene.cpp:149-151 | the target as written pushes a player facing North to y + 1, where the server pushes it to y - 1 |
| Scene.ExpulsionWestEdgeWrapsWrong | GUI/src/Renderer/Raylib/Scene/AScene.cpp:146-148 | at the west edge of a 10-wide map the target as written wraps through 2^64 and lands on column 5, not 9 |
| Scene.ExpulsionEastAgrees | GUI/src/Renderer/Raylib/Scene/AScene.cpp:146-148 | facing East, the target as written agrees with the intended one |
| GuiApp.SizeRead | GUI/src/Gui.cpp:39-40 | a read that keeps the stream good stores a value that fits a size_t |
| GuiApp.ScanPort | GUI/src/Gui.cpp:36-41 | -p reads the next argument into the port and throws "Invalid port number" when the read fails or gives 0 |
| GuiApp.ScanHost | GUI/src/Gui.cpp:42-45 | -h stores the next argument as the host |
| GuiApp.ScanMissing | GUI/src/Gui.cpp:37-44 | -p or -h as the last argument throws "Missing value" |
| GuiApp.ScanFlag | GUI/src/Gui.cpp:46-49 | -d and -debug set debug; -r and -raylib choose raylib |
| GuiApp.Checked | GUI/src/Gui.cpp:54-57 | after the loop, parsing succeeds exactly when no option threw, a host is set and the port is in 1..65535 |
| GuiApp.Gui.constructor | GUI/src/Gui.cpp:12-19 | a new client has host 127.0.0.1, port 4242, debug off and no renderer |
| GuiApp.Gui.ParseArgs | GUI/src/Gui.cpp:21-67 | fewer than three entries throw and change nothing; otherwise the fields hold what the option loop stored, the first error is thrown, and on success the renderer is chosen |
| GuiApp.PortReadable | GUI/src/Gui.cpp:39-40 | a port written in decimal reads back as itself |
| GuiApp.PortTextAndHostAccepted | GUI/src/Gui.cpp:33-52 | "-p text -h host" sets the port read and the host, with no error |
| GuiApp.PortAndHostAccepted | GUI/src/Gui.cpp:21-67 | "-p port -h host" with a port in 1..65535 is accepted and draws with ncurses |
| GuiApp.ZeroPortRejected | GUI/src/Gui.cpp:40-41 | port 0 throws as an invalid port number |
| GuiApp.NegativePortOutOfRange | GUI/src/Gui.cpp:39-57 | "-p -1" wraps into the largest size_t, which the range check refuses |
| GuiApp.UnknownOptionRejected | GUI/src/Gui.cpp:50-51 | any option other than -p, -h, -d, -debug, -r and -raylib throws, naming it |
| GuiApp.AcceptedSettings | GUI/src/Gui.cpp:54-66 | after a successful parse the port is in 1..65535 and a host is set; debug alone gives the debug renderer, and raylib wins over debug |
| CppInt.Rem | Server/Game/Commands/EjectCommand.cpp:83-85 | the int remainder is smaller than the divisor in magnitude and takes the sign of the dividend |
| CppInt.Saturate | Server/Game/Commands/GuiCommand.cpp:153 | reading into an int stores the value when it fits and the nearest int bound otherwise |
| CppInt.ToSize | Server/Game/Commands/LookCommand.cpp:10-15 | converting to size_t keeps a value that fits and wraps a negative one by 2^64 |
| Text.EraseAll | Server/Game/Commands/GuiCommand.cpp:180-185 | erasing the first '#' and searching again until none is left removes every '#' and nothing else |
| Text.RemoveAll | Server/Game/Commands/GuiCommand.cpp:180-185 | the text without c holds no c and keeps the count of every other character |
| Resource.FromIndex | Data/Game/Resource.hpp:20-29 | each value 0 to 6 is the underlying value of exactly the kind built from it |
| Resource.IndexOfName | Data/Game/Resource.hpp:52-60 | the search through the names table finds a position holding the name exactly when the name is in the table |
| Orientation.FromIndex | Data/Game/Orientation.hpp:19-24 | each value 0 to 3 is the index of the direction built from it |
| ServerWorld.CommandHandler.constructor | Server/Game/Commands/ClientCommand.hpp:124-128 | a new handler holds the size, frequency and team list it is given, and no command is registered yet; the model starts the map it shares empty |

## Left out

- Sockets, `poll`, threads, mutexes, wall-clock timing, logging, `printDebug`, raylib drawing, the F11 `ToggleFullscreen()` of GameMenu.cpp:58-59 and randomness are not modelled. The join orientation of a new player and the random tile of an egg become parameters.
- Integer width: `int` fields are unbounded. The model writes out `size_t` wrap-around (`CppInt.ToSize`) and the saturation of the server's int reads (`CppInt.Saturate`, used by `GuiCommand.StreamInt`).
- ProtocolStream.Next: the GUI client's `stream >> n` reads are unbounded. A number outside the range of its variable is read as itself. In C++ it would be stored as the nearest bound and would fail the stream. For "plv #99999999999 2" the code leaves `level` uninitialised, where the model gives the player level 2 and id 99999999999.
- GuiCommand.BctReply: the bound is the corrected x < width and y < height. The code's `x <= width`, `y <= height` reads past the grid at the edge (Findings row 3). The same holds for GuiCommand.HandleBct and GuiCommand.BctReplyRejected.
- GameMenu.GameMenu.RemovePlayer: the emptiness test comes before the remainder. The code takes `% size()` first, which is `% 0` when the last player goes (Findings row 11).
- PlayerCommand.HandleFork: `handleFork` calls `_waitCommand(limit)` with an argument that matches no declared overload. The model drops that wait.
- PlayerCommand.LayEgg: `allowNewPlayer` is taken to add one slot to `clientNb` (TeamsPlayer.hpp:69-77, body not shown). Egg ids are sequential.
- IncantationCommand: concurrent changes during the incantation delay are reduced to one input, the set of players ejected meanwhile.
- GuiCommand.HandlePpo: `msg = msg + …` reads `msg` during its own initialisation, which is undefined behaviour. The model takes the prefix "ppo #".
- ClientCommand.ProcessClientInput: popping an empty queue is undefined behaviour, so the model requires a non-empty queue.
- Players: `_isPraying` is never initialised. The model starts it as false.
- Resource.IndexOfName: `getResource` on an unknown name has no defined result. The model answers None.
- Orientation.ipp, `stepForward` and the bodies of Map and ResourceContainer are not part of this model. Their behaviour is modelled from their declarations and doc comments.
- InputManager: raylib key codes are taken in raylib's order (RIGHT 262, LEFT 263, DOWN 264, UP 265). `isKeyReleased` is declared only. Its body is taken from the doc comment at InputManager.hpp:50-55: a key reads released on the frame it is let go.
- MenuMacros.NextSection: the `++` on the two-valued section enum is taken as a step modulo 2.
- GuiCommand.cpp and HandleGuiCommand.cpp both define the GUI handlers, so only one of them can be linked. The model follows GuiCommand.cpp, except for `pnw`, which follows HandleGuiCommand.cpp: GuiCommand.cpp prints `pnw` with an `operator<<` whose body is not shown.
- ServerGame.Game.HandleTeamJoin: `handleTeamJoin` dereferences the `end()` iterator before it checks it, so the model requires the team to exist.
- ServerGame.FoodStep: `getPlayerList()` returns the member list by value (ATeams.hpp:68-76), so the loop at Game.cpp:150-179 walks a copy that a removal does not disturb. The model reduces that loop to one player per step, chosen by the caller, whose life clock has run out. The life clock is timing and is left out.
- GuiGameState: the methods GameState.hpp declares but does not define (updatePlayerPosition, playerExpulsion, endGame and the others) are left out, because GameState.cpp is not part of this model.
- GuiApp.Gui.ParseArgs: the help branch (`argc == 2`) cannot be reached once `argc < 3` has thrown, so it is not modelled.
- PauseMenu.PauseMenu.HandleInput: PauseMenu.cpp:78 cannot be reached because the menu key is ESCAPE.
- Protocol: `connectToServer`, the `request*` functions and the network manager are network I/O and are left out.
- MapRendererModel: floating-point positions, rotations, animation timing, effects and resource models are left out. The model keeps the player and egg lists and the action queues.
- InputManager: mouse position and mouse delta are left out.
- Scene: `updatePlayerLevel` and `updatePlayerInventory` have empty bodies and are not modelled.
- Protocol.Protocol.Handle: handlers that would read an uninitialised local (a failed or blank stream read) are modelled as undefined (`Calls` is None). `Handle` requires an admissible line.
- CollectResources and Reproduction: the pathfinder, the vision parser, the clock and the spawning of new agents are external capabilities. Their answers are parameters of each call.

## Findings

| source | as written | input that shows it | evidently intended | confidence | as-written member | corrected member |
|---|---|---|---|---|---|---|
| Server/Game/Commands/LookCommand.cpp:10-16 | `_normalizeCoords` takes the coordinate as `size_t`, so a negative int wraps through 2^64 before the remainder | width 10, x = -1 gives column 5 | the tile one step left of column 0 is column 9 | not executed | LookCommand.NormalizeAsWritten, LookCommand.NormalizeAsWrittenWrapsWrong | LookCommand.NormalizeCoord |
| Server/Game/Commands/LookCommand.cpp:77-93 | `_getTileContent` writes "player" and then each resource with no separator between the two | one player and one food on a tile gives " playerfood" | the words are separated: " player food" | not executed | LookCommand.TileContentAsWritten, LookCommand.TileContentAsWrittenRunsTogether | LookCommand.TileContent, LookCommand.TileContentWords |
| Server/Game/Commands/GuiCommand.cpp:43-45 | `bct` rejects only x > width and y > height | "W 0" on a map W wide passes and reads past the last column | only tiles inside the grid are accepted: x < width and y < height | not executed | GuiCommand.BctAcceptsAsWritten, GuiCommand.BctAsWrittenReadsPastGrid | GuiCommand.BctAccepts, GuiCommand.BctAcceptsNarrower, GuiCommand.HandleBct |
| Server/Game/Commands/IncantationCommand.cpp:65-69 | the requirement row is read before the level is checked against the table | a level-8 player reads one row past the end of the table | the level is checked before the row is read | not executed | IncantationCommand.CheckIncantationConditionsAsWritten, IncantationCommand.RowReadPastEnd | IncantationCommand.CheckIncantationConditions |
| Server/Game/Commands/BroadcastCommand.cpp:76-79 | the EAST and WEST cases of the switch are swapped | receiver at (0, 0) facing East, sender at (1, 0): told 5, behind | the sound from straight ahead is heard as 1 | not executed | BroadcastCommand.RotateAsWritten, BroadcastCommand.AsWrittenHearsAheadAsBehind | BroadcastCommand.RotateComponents, BroadcastCommand.NeighbourHeard |
| Server/Game/Commands/IncantationCommand.cpp:152-153 | each participant id of `pic` is appended as one byte | id 12 reaches the client as " #" and a form feed, which the client skips | each id is written in decimal: " #12" | not executed | IncantationCommand.IdListAsWritten, IncantationCommand.IdListAsWrittenExample, ProtocolRoundTrip.PicAsWrittenLosesIds | IncantationCommand.IdList, ProtocolRoundTrip.PicRoundTrip |
| Server/Game/Commands/GuiCommand.cpp:80-84 | `ppo` reports the requester's orientation, and West comes out as 0 | a client facing West asks about a player facing North and is not told 1 | the looked-up player's orientation as a code 1 to 4 | not executed | GuiCommand.PpoTextAsWritten, GuiCommand.PpoAsWrittenMisreports, ProtocolRoundTrip.PpoAsWrittenRoundTrip | GuiCommand.OrientationCode, ProtocolRoundTrip.PpoTextRoundTrip |
| Server/Game/Commands/HandleGuiCommand.cpp:31 | `pnw` writes `orientation + 1` with the cyclic +, so West comes out as 0 | a new player facing West is announced with orientation 0 | West is announced as 4 | not executed | GuiCommand.PnwTextAsWritten, GuiCommand.PnwAsWrittenMisreportsWest, ProtocolRoundTrip.PnwAsWrittenRoundTrip | GuiCommand.PnwText, ProtocolRoundTrip.PnwTextRoundTrip |
| GUI/src/Network/Protocol.cpp:476-482 | `handlePlayerBroadcast` reads the message with `>>`, which stops at the first blank | "pbc #3 hello world" reaches the renderer as "hello" | the whole message text reaches the renderer | not executed | Protocol.BroadcastCall, ProtocolRoundTrip.BroadcastRoundTrip | Protocol.BroadcastCallCorrected, ProtocolRoundTrip.BroadcastCorrectedRoundTrip |
| GUI/src/Renderer/Raylib/Menu/GameMenu.cpp:187-193 | LEFT past the first card wraps to the last multiple of the page size, pulled back by one card less than a page when the players fill whole pages | one player, one card per page: LEFT lands on index 1 and no card is drawn | LEFT lands on the start of the last page, which shows at least one card | not executed | GameMenu.LeftWrapAsWritten, GameMenu.LeftFromOnlyPlayerShowsNothing | GameMenu.LeftWrap, GameMenu.LeftWrapShowsPlayers |
| GUI/src/Renderer/Raylib/Menu/GameMenu.cpp:132-133 | after a removal the index is taken modulo the new player count | removing the only player at index 0 takes `0 % 0` | with no player left the emptiness test comes first and sets the index to -1 | not executed | GameMenu.RemovedIndexAsWritten, GameMenu.RemoveLastPlayerDividesByZero | GameMenu.GameMenu.RemovePlayer |
| GUI/src/Renderer/Raylib/Scene/AScene.cpp:146-151 | the expulsion target moves North to y + 1, and a -1 step wraps through `size_t` | a player at x = 0 on a 10-wide map pushed West lands on column 5; one pushed North goes to y + 1 | the server's move: North is y - 1 and the step wraps around the map | not executed | Scene.PlayerExpulsion, Scene.ExpulsionTargetAsWritten, Scene.ExpulsionNorthReversed, Scene.ExpulsionWestEdgeWrapsWrong | Scene.ExpulsionTarget, Scene.CorrectedExpulsion |
