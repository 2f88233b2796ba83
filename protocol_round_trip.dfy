/**
 * What the graphical client makes of the lines the server writes: each
 * server reply, cut after its three-letter code, read back by the client's
 * handler. Where the server writes what the protocol says, the client
 * recovers every value; where it does not, the lemmas show what the client
 * sees instead.
 */
module ProtocolRoundTrip {
  import opened Wrappers
  import opened CppInt
  import opened Text
  import opened Resource
  import opened ResourceContainer
  import opened GameMap
  import opened ProtocolStream
  import opened Protocol
  import GC = GuiCommand
  import MC = MoveCommand
  import IC = IncantationCommand
  import BC = BroadcastCommand
  import SW = ServerWorld
  import O = Orientation
  import GP = GuiProtocol

  /** The parameters of a line: what follows its three-letter code. */
  function Params(line: string): string
  {
    if |line| >= 3 then line[3..] else ""
  }

  /** Every value fits a size_t, so reading it into one keeps it. */
  predicate Sizes(vs: seq<int>)
  {
    forall i :: 0 <= i < |vs| ==> 0 <= vs[i] < SizeModulus
  }

  /** Numbers read on a stream that stays good fill their slots with themselves. */
  lemma ReadsNumbers(s: string, n: nat, vs: seq<int>, rest: string)
    requires ReadInts(s, n) == Some((vs, rest))
    ensures Reads(s, n) == (Slotted(vs), Some(rest))
  {
    ReadsOfReadInts(s, n);
  }

  /** Seven quantities read into size_t after k other values are the quantities themselves. */
  lemma CountsOfNumbers(vs: seq<int>, k: nat, tile: Stock)
    requires |vs| == k + ResourceQuantity && vs[k..] == tile && Sizes(tile)
    ensures CountsOf(Slotted(vs)[k..]) == tile
  {
    var c := CountsOf(Slotted(vs)[k..]);
    forall i | 0 <= i < ResourceQuantity
      ensures c[i] == tile[i]
    {
      assert Slotted(vs)[k..][i] == Read(vs[k + i]);
    }
  }

  /** Removing '#' from " #" and a text without '#' leaves the blank and the text. */
  lemma SharpDropped(body: string)
    requires '#' !in body
    ensures Unsharped(" #" + body) == " " + body
  {
    assert " #" + body == " " + ("#" + body);
    RemoveAllAppend(" ", "#" + body, '#');
    RemoveAllAppend("#", body, '#');
    RemoveAllAbsent(" ", '#');
    RemoveAllAbsent(body, '#');
    assert RemoveAll("#", '#') == [];
    assert [] + body == body;
  }

  /** A line "xyz #" + body: its parameters after removing '#' are a blank and the body. */
  lemma TaggedParams(p: string, body: string)
    requires |p| == 5 && p[3..] == " #" && '#' !in body
    ensures Unsharped(Params(p + body)) == " " + body
  {
    assert Params(p + body) == " #" + body;
    SharpDropped(body);
  }

  /** A number, a run of numbers and a newline hold no '#'. */
  lemma NumbersWithoutSharp(x: int, xs: seq<int>)
    ensures '#' !in IntToString(x) + NumbersText(xs) + "\n"
  {
    IntToStringWithout(x, '#');
    NumbersTextWithout(xs, '#');
  }

  // ---- msz ---------------------------------------------------------------------------

  /** The map size the server announces is the one the client builds its map with. */
  lemma MszRoundTrip(w: nat, h: nat, frequency: nat)
    requires w < SizeModulus && h < SizeModulus
    ensures MapDims(Params(GC.MszText(w, h))) == (w, h)
    ensures Calls(GP.MapSize, Params(GC.MszText(w, h)), frequency) == Some([Init])
  {
    GC.MszReadable(w, h);
    ReadsNumbers(Params(GC.MszText(w, h)), 2, [w, h], "\n");
  }

  // ---- bct ---------------------------------------------------------------------------

  /** The tile the server describes is the tile the client stores, at the place the server names. */
  lemma BctRoundTrip(x: int, y: int, tile: Stock)
    requires Sizes(tile)
    ensures Tile(Params(GC.BctText(x, y, tile))) == Some((x, y, tile))
  {
    var params := Params(GC.BctText(x, y, tile));
    GC.BctReadable(x, y, tile);
    ReadsNumbers(params, 2 + ResourceQuantity, [x, y] + tile, "\n");
    CountsOfNumbers([x, y] + tile, 2, tile);
  }

  /** A tile line for a place on the client's map replaces that tile and no other. */
  lemma BctUpdatesTile(x: nat, y: nat, tile: Stock, g: Grid)
    requires Sizes(tile) && x < |g| && y < |g[x]|
    ensures TilesAfter(Params(GC.BctText(x, y, tile)), g) == WithTile(g, x, y, tile)
  {
    BctRoundTrip(x, y, tile);
  }

  // ---- sgt ---------------------------------------------------------------------------

  /** The time unit the server reports is the one the client reads. */
  lemma SgtRoundTrip(f: nat, frequency: nat)
    requires f < SizeModulus
    ensures TimeUnitOf(Params(GC.SgtText(f))) == Some(f)
    ensures TimeUnitCalls(Params(GC.SgtText(f)), frequency) == Some(if f != frequency then [SetFrequency(f)] else [])
  {
    GC.SgtReadable(f);
    ReadsNumbers(Params(GC.SgtText(f)), 1, [f], "\n");
  }

  /** Both time unit codes are bound to handleTimeUnit. */
  lemma TimeUnitDispatch(params: string, frequency: nat)
    ensures Calls(GP.TimeUnitRequest, params, frequency) == TimeUnitCalls(params, frequency)
    ensures Calls(GP.TimeUnitModification, params, frequency) == TimeUnitCalls(params, frequency)
  {
    TimeUnitCase(GP.TimeUnitRequest, params, frequency);
    TimeUnitCase(GP.TimeUnitModification, params, frequency);
  }

  lemma TimeUnitCase(cmd: GP.GuiProtocol, params: string, frequency: nat)
    requires cmd == GP.TimeUnitRequest || cmd == GP.TimeUnitModification
    ensures Calls(cmd, params, frequency) == TimeUnitCalls(params, frequency)
  {
    match cmd
    case TimeUnitRequest =>
    case TimeUnitModification =>
  }

  // ---- pin ---------------------------------------------------------------------------

  /** The inventory the server reports reaches the renderer for the player it names. */
  lemma PinRoundTrip(p: SW.ServerPlayer)
    requires Sizes(p.inventory)
    ensures InventoryCall(Params(GC.PinText(p))) == Some(UpdatePlayerInventory(p.id, p.inventory))
  {
    var xs := [p.x, p.y] + p.inventory;
    var v, n := IntToString(p.id), NumbersText(xs);
    var body := v + n + "\n";
    NumbersTextTwo(p.x, p.y, p.inventory);
    Gather("pin #", v, " ", IntToString(p.x), " ", IntToString(p.y), NumbersText(p.inventory), "\n");
    assert GC.PinText(p) == "pin #" + body;
    NumbersWithoutSharp(p.id, xs);
    TaggedParams("pin #", body);
    GC.PinReadable(p);
    assert GC.PinText(p)[5..] == body;
    ReadIntsSpace(body, 9);
    ReadsNumbers(" " + body, 3 + ResourceQuantity, [p.id, p.x, p.y] + p.inventory, "\n");
    CountsOfNumbers([p.id, p.x, p.y] + p.inventory, 3, p.inventory);
  }


  // ---- ppo ---------------------------------------------------------------------------

  /** A ppo line reaches the renderer as the id, the place and the orientation its code stands for. */
  lemma PpoRoundTrip(id: int, x: int, y: int, c: int)
    ensures PositionCall(Params(GC.PpoLine(id, x, y, c))) == Some(UpdatePlayerPosition(id, x, y, OrientationValue(c)))
  {
    PpoReads(id, x, y, c);
    PositionOf(Params(GC.PpoLine(id, x, y, c)), id, x, y, c, "\n");
  }

  /** handlePlayerPosition on parameters whose four reads give id, x, y and c. */
  lemma PositionOf(params: string, id: int, x: int, y: int, c: int, rest: string)
    requires Reads(Unsharped(params), 4) == (Slotted([id, x, y, c]), Some(rest))
    ensures PositionCall(params) == Some(UpdatePlayerPosition(id, x, y, OrientationValue(c)))
  {
  }

  /** The four numbers of a ppo line are read, and only the newline is left. */
  lemma PpoReads(id: int, x: int, y: int, c: int)
    ensures Reads(Unsharped(Params(GC.PpoLine(id, x, y, c))), 4) == (Slotted([id, x, y, c]), Some("\n"))
  {
    var xs := [x, y] + [c];
    var v, n := IntToString(id), NumbersText(xs);
    var body := v + n + "\n";
    NumbersTextTwo(x, y, [c]);
    NumbersTextOne(c);
    GatherNine("ppo #", v, " ", IntToString(x), " ", IntToString(y), " ", IntToString(c), "\n");
    assert GC.PpoLine(id, x, y, c) == "ppo #" + body;
    NumbersWithoutSharp(id, xs);
    TaggedParams("ppo #", body);
    GC.PpoLineReadable(id, x, y, c);
    assert GC.PpoLine(id, x, y, c)[5..] == body;
    ReadIntsSpace(body, 3);
    ReadsNumbers(" " + body, 4, [id, x, y, c], "\n");
  }

  /** The protocol's codes 1 to 4 arrive as the direction they encode. */
  lemma CodeDirection(o: O.Orientation)
    ensures Direction(OrientationValue(GC.OrientationCode(o))) == Some(o)
  {
    WireCodes(o);
  }

  /**
   * The cyclic codes the server writes arrive as the direction they were
   * computed from, except West: its code 0 arrives as -1, which names no
   * direction.
   */
  lemma CyclicCodeDirection(o: O.Orientation)
    ensures Direction(OrientationValue(GC.OrientationCodeAsWritten(o))) == if o == O.West then None else Some(o)
  {
    var c := GC.OrientationCodeAsWritten(o);
    OrientationValueIsPredecessor(c);
    GC.OrientationCodeWrapsWest(o);
    if o != O.West {
      O.IndexInjective(Direction(c - 1).value, o);
    }
  }

  /** The server's own movement report: the client recovers the player's place and direction. */
  lemma PpoTextRoundTrip(p: SW.ServerPlayer)
    ensures PositionCall(Params(MC.PpoText(p)))
         == Some(UpdatePlayerPosition(p.id, p.x, p.y, OrientationValue(GC.OrientationCode(p.orientation))))
    ensures Direction(OrientationValue(GC.OrientationCode(p.orientation))) == Some(p.orientation)
  {
    assert MC.PpoText(p) == GC.PpoLine(p.id, p.x, p.y, GC.OrientationCode(p.orientation));
    PpoRoundTrip(p.id, p.x, p.y, GC.OrientationCode(p.orientation));
    CodeDirection(p.orientation);
  }

  /**
   * handlePpo's reply as written: the client places the player looked up,
   * but turns it to the requester's direction, or to none when the
   * requester faces West.
   */
  lemma PpoAsWrittenRoundTrip(p: SW.ServerPlayer, requester: SW.ServerPlayer)
    ensures var e := OrientationValue(GC.OrientationCodeAsWritten(requester.orientation));
      PositionCall(Params(GC.PpoTextAsWritten(p, requester))) == Some(UpdatePlayerPosition(p.id, p.x, p.y, e))
      && Direction(e) == if requester.orientation == O.West then None else Some(requester.orientation)
  {
    var c := GC.OrientationCodeAsWritten(requester.orientation);
    assert GC.PpoTextAsWritten(p, requester) == GC.PpoLine(p.id, p.x, p.y, c);
    PpoRoundTrip(p.id, p.x, p.y, c);
    CyclicCodeDirection(requester.orientation);
  }

  // ---- pnw ---------------------------------------------------------------------------

  /** A team name the client can read back as one word: not empty, no blank, no '#'. */
  predicate TeamWord(team: string)
  {
    team != [] && '#' !in team && forall i :: 0 <= i < |team| ==> !IsSpace(team[i])
  }

  /** "pnw #id x y c level team\n" for the orientation code c. */
  function PnwLine(id: int, x: int, y: int, c: int, level: int, team: string): string
  {
    "pnw #" + IntToString(id) + " " + IntToString(x) + " " + IntToString(y) + " "
      + IntToString(c) + " " + IntToString(level) + " " + team + "\n"
  }

  lemma PnwGather(p: string, v: string, s: string, a: string, b: string, c: string, d: string, t: string, e: string)
    ensures p + v + s + a + s + b + s + c + s + d + s + t + e == p + (v + (s + a + s + b + (s + c + s + d)) + (s + t + e))
  {
  }

  /** After removing '#', a pnw line's parameters are a blank, the numbers, a blank, the team and the newline. */
  lemma PnwParams(id: int, x: int, y: int, c: int, level: int, team: string)
    requires '#' !in team
    ensures Unsharped(Params(PnwLine(id, x, y, c, level, team)))
         == " " + (IntToString(id) + NumbersText([x, y, c, level]) + (" " + team + "\n"))
  {
    var xs := [x, y] + [c, level];
    assert xs == [x, y, c, level];
    var v, n, tail := IntToString(id), NumbersText(xs), " " + team + "\n";
    var body := v + n + tail;
    NumbersTextTwo(x, y, [c, level]);
    NumbersTextPair(c, level);
    PnwGather("pnw #", v, " ", IntToString(x), IntToString(y), IntToString(c), IntToString(level), team, "\n");
    assert PnwLine(id, x, y, c, level, team) == "pnw #" + body;
    IntToStringWithout(id, '#');
    NumbersTextWithout(xs, '#');
    TaggedParams("pnw #", body);
  }

  /** The five numbers of a pnw line are read, and the stream is left before the team name. */
  lemma PnwReads(id: int, xs: seq<int>, team: string)
    requires |xs| == 4
    ensures Reads(" " + (IntToString(id) + NumbersText(xs) + (" " + team + "\n")), 5)
         == (Slotted([id] + xs), Some(" " + team + "\n"))
  {
    var tail := " " + team + "\n";
    var body := IntToString(id) + NumbersText(xs) + tail;
    ReadIntsLine(id, xs, tail);
    ReadIntsSpace(body, 4);
    ReadsNumbers(" " + body, 5, [id] + xs, tail);
  }

  /** handleNewPlayer on parameters whose five reads succeed and leave the team name. */
  lemma NewPlayerOf(params: string, id: int, x: int, y: int, c: int, level: nat, team: string)
    requires Reads(Unsharped(params), 5) == (Slotted([id, x, y, c, level]), Some(" " + team + "\n"))
    requires level < SizeModulus && TeamWord(team)
    ensures NewPlayerCall(params) == Some(AddPlayer(id, x, y, OrientationValue(c), level, team))
  {
    var sl := Slotted([id, x, y, c, level]);
    assert sl[0] == Read(id) && sl[1] == Read(x) && sl[2] == Read(y) && sl[3] == Read(c) && sl[4] == Read(level);
    assert Usable(sl) && SizeVal(sl[4]) == level;
    TeamWordRead(team);
    NewPlayerFrom(params, sl, Some(" " + team + "\n"));
  }

  /** handleNewPlayer's call, in terms of what its five reads leave. */
  lemma NewPlayerFrom(params: string, sl: seq<Slot>, st: Option<string>)
    requires Reads(Unsharped(params), 5) == (sl, st) && Usable(sl) && |sl| == 5
    ensures NewPlayerCall(params)
         == Some(AddPlayer(Val(sl[0]), Val(sl[1]), Val(sl[2]), OrientationValue(Val(sl[3])), SizeVal(sl[4]), WordOf(st)))
  {
  }

  /** The team name after the numbers is read whole as the next word. */
  lemma TeamWordRead(team: string)
    requires TeamWord(team)
    ensures WordOf(Some(" " + team + "\n")) == team
  {
    ReadWordOfWord(team, "\n");
  }

  /** A pnw line reaches the renderer as a new player with the values written and the whole team name. */
  lemma PnwRoundTrip(id: int, x: int, y: int, c: int, level: nat, team: string)
    requires level < SizeModulus && TeamWord(team)
    ensures NewPlayerCall(Params(PnwLine(id, x, y, c, level, team)))
         == Some(AddPlayer(id, x, y, OrientationValue(c), level, team))
  {
    var params := Params(PnwLine(id, x, y, c, level, team));
    var tail := " " + team + "\n";
    PnwParams(id, x, y, c, level, team);
    PnwReads(id, [x, y, c, level], team);
    FiveSlots(id, [x, y, c, level]);
    assert Reads(Unsharped(params), 5) == (Slotted([id, x, y, c, level]), Some(tail));
    NewPlayerOf(params, id, x, y, c, level, team);
  }

  lemma FiveSlots(id: int, xs: seq<int>)
    requires |xs| == 4
    ensures Slotted([id] + xs) == Slotted([id, xs[0], xs[1], xs[2], xs[3]])
  {
    assert [id] + xs == [id, xs[0], xs[1], xs[2], xs[3]];
  }

  /** The protocol's pnw line: the client adds the player facing its own direction. */
  lemma PnwTextRoundTrip(p: SW.ServerPlayer)
    requires p.level < SizeModulus && TeamWord(p.teamName)
    ensures NewPlayerCall(Params(GC.PnwText(p)))
         == Some(AddPlayer(p.id, p.x, p.y, OrientationValue(GC.OrientationCode(p.orientation)), p.level, p.teamName))
    ensures Direction(OrientationValue(GC.OrientationCode(p.orientation))) == Some(p.orientation)
  {
    assert GC.PnwText(p) == PnwLine(p.id, p.x, p.y, GC.OrientationCode(p.orientation), p.level, p.teamName);
    PnwRoundTrip(p.id, p.x, p.y, GC.OrientationCode(p.orientation), p.level, p.teamName);
    CodeDirection(p.orientation);
  }

  /**
   * handlePnw's line as written: the client adds the player with its
   * direction, except a player facing West, whose -1 names no direction.
   */
  lemma PnwAsWrittenRoundTrip(p: SW.ServerPlayer)
    requires p.level < SizeModulus && TeamWord(p.teamName)
    ensures var e := OrientationValue(GC.OrientationCodeAsWritten(p.orientation));
      NewPlayerCall(Params(GC.PnwTextAsWritten(p))) == Some(AddPlayer(p.id, p.x, p.y, e, p.level, p.teamName))
      && Direction(e) == (if p.orientation == O.West then None else Some(p.orientation))
      && (p.orientation == O.West ==> e == -1)
  {
    var c := GC.OrientationCodeAsWritten(p.orientation);
    assert GC.PnwTextAsWritten(p) == PnwLine(p.id, p.x, p.y, c, p.level, p.teamName);
    PnwRoundTrip(p.id, p.x, p.y, c, p.level, p.teamName);
    CyclicCodeDirection(p.orientation);
    OrientationValueIsPredecessor(c);
    GC.OrientationCodeWrapsWest(p.orientation);
  }

  // ---- pic ---------------------------------------------------------------------------

  /** Reading every id of a run written by NumbersText and ended by the newline gives the run back. */
  lemma {:induction false} ReadAllOfLine(xs: seq<int>)
    ensures ReadAll(NumbersText(xs) + "\n") == xs
  {
    if xs == [] {
      assert NumbersText(xs) + "\n" == "\n";
      assert SkipSpaces("\n"[1..]) == [];
    } else {
      var v := IntToString(xs[0]);
      var tail := NumbersText(xs[1..]) + "\n";
      NumbersTextSplit(xs, "\n");
      ReadIntAfterSpace(v + tail);
      ReadIntOfIntToString(xs[0], tail);
      ReadAllOfLine(xs[1..]);
      HeadTail(xs);
    }
  }

  /** Removing '#' from the participant tags leaves the ids as a run of numbers. */
  lemma {:induction false} IdListUnsharped(ids: seq<int>)
    ensures Unsharped(IC.IdList(ids)) == NumbersText(ids)
  {
    if ids != [] {
      var v := IntToString(ids[0]);
      IntToStringWithout(ids[0], '#');
      RemoveAllAppend(IC.Tag(ids[0]), IC.IdList(ids[1..]), '#');
      SharpDropped(v);
      IdListUnsharped(ids[1..]);
      NumbersTextCons(ids[0], ids[1..]);
      HeadTail(ids);
    }
  }

  /** Removing '#' from three pieces, the first and last without '#'. */
  lemma UnsharpedMiddle(a: string, b: string, e: string)
    requires '#' !in a && '#' !in e
    ensures Unsharped(a + b + e) == a + Unsharped(b) + e
  {
    RemoveAllAppend(a + b, e, '#');
    RemoveAllAppend(a, b, '#');
    RemoveAllAbsent(a, '#');
    RemoveAllAbsent(e, '#');
  }

  lemma PicGather(p: string, s: string, x: string, y: string, z: string, l: string, e: string)
    ensures (p + s) + x + s + y + s + z + l + e == p + ((s + x + s + y + (s + z)) + l + e)
  {
  }

  /** The three numbers of a pic line, as a run. */
  lemma PicNumbers(x: int, y: int, level: nat)
    ensures NumbersText([x, y, level]) == " " + IntToString(x) + " " + IntToString(y) + (" " + NatToString(level))
  {
    NumbersTextTwo(x, y, [level]);
    NumbersTextOne(level);
    assert [x, y] + [level] == [x, y, level];
  }

  /** A pic line is "pic", its three numbers, the participant tags and the newline. */
  lemma PicLayout(x: int, y: int, level: nat, ids: seq<int>)
    ensures Params(IC.PicMessage(x, y, level, ids)) == NumbersText([x, y, level]) + IC.IdList(ids) + "\n"
  {
    PicNumbers(x, y, level);
    assert "pic " == "pic" + " ";
    PicGather("pic", " ", IntToString(x), IntToString(y), NatToString(level), IC.IdList(ids), "\n");
    DropPrefixThree("pic", NumbersText([x, y, level]) + IC.IdList(ids) + "\n");
  }

  /** The parameters of a line of "xyz" and a text are that text. */
  lemma DropPrefixThree(code: string, rest: string)
    requires |code| == 3
    ensures Params(code + rest) == rest
  {
    assert (code + rest)[3..] == rest;
  }

  /** After removing '#', the parameters of a pic line are its three numbers, the ids and the newline. */
  lemma PicParams(x: int, y: int, level: nat, ids: seq<int>)
    ensures Unsharped(Params(IC.PicMessage(x, y, level, ids))) == NumbersText([x, y, level]) + (NumbersText(ids) + "\n")
  {
    var a := NumbersText([x, y, level]);
    PicLayout(x, y, level, ids);
    NumbersTextWithout([x, y, level], '#');
    UnsharpedMiddle(a, IC.IdList(ids), "\n");
    IdListUnsharped(ids);
  }

  /** The protocol's pic line: the client starts the incantation on the tile, at the level, with every participant. */
  lemma PicRoundTrip(x: nat, y: nat, level: nat, ids: seq<int>)
    requires x < SizeModulus && y < SizeModulus && level < SizeModulus
    ensures IncantationStartCall(Params(IC.PicMessage(x, y, level, ids))) == Some(StartIncantation(x, y, level, ids))
  {
    var rest := NumbersText(ids) + "\n";
    PicParams(x, y, level, ids);
    ReadIntsOfNumbers([x, y, level], rest);
    ReadsNumbers(NumbersText([x, y, level]) + rest, 3, [x, y, level], rest);
    ReadAllOfLine(ids);
  }

  /** A pic line as written is "pic", its three numbers, the byte tags and the newline. */
  lemma PicAsWrittenLayout(x: int, y: int, level: nat, ids: seq<int>)
    ensures Params(IC.PicMessageAsWritten(x, y, level, ids)) == NumbersText([x, y, level]) + IC.IdListAsWritten(ids) + "\n"
  {
    PicNumbers(x, y, level);
    assert "pic " == "pic" + " ";
    PicGather("pic", " ", IntToString(x), IntToString(y), NatToString(level), IC.IdListAsWritten(ids), "\n");
    DropPrefixThree("pic", NumbersText([x, y, level]) + IC.IdListAsWritten(ids) + "\n");
  }

  /**
   * incantationPrinting's pic line as written: the id 12 goes out as the
   * byte 12, a form feed, which the client skips as a blank, so the
   * incantation starts with no participant at all.
   */
  lemma PicAsWrittenLosesIds()
    ensures IncantationStartCall(Params(IC.PicMessageAsWritten(1, 2, 3, [12]))) == Some(StartIncantation(1, 2, 3, []))
    ensures IncantationStartCall(Params(IC.PicMessage(1, 2, 3, [12]))) == Some(StartIncantation(1, 2, 3, [12]))
  {
    var a := NumbersText([1, 2, 3]);
    var b := [12 as char];
    var rest := " " + b + "\n";
    var params := Params(IC.PicMessageAsWritten(1, 2, 3, [12]));
    PicAsWrittenLayout(1, 2, 3, [12]);
    assert IC.IdListAsWritten([12]) == " #" + b;
    NumbersTextWithout([1, 2, 3], '#');
    UnsharpedMiddle(a, " #" + b, "\n");
    SharpDropped(b);
    StringAssoc(a, " " + b, "\n");
    ReadIntsOfNumbers([1, 2, 3], rest);
    ReadsNumbers(a + rest, 3, [1, 2, 3], rest);
    FormFeedSkipped(rest);
    StartOf(params, 1, 2, 3, rest);
    PicRoundTrip(1, 2, 3, [12]);
  }

  /** handleIncantationStart on parameters whose three reads give the tile and the level. */
  lemma StartOf(params: string, x: nat, y: nat, level: nat, rest: string)
    requires x < SizeModulus && y < SizeModulus && level < SizeModulus
    requires Reads(Unsharped(params), 3) == (Slotted([x, y, level]), Some(rest))
    ensures IncantationStartCall(params) == Some(StartIncantation(x, y, level, ReadAll(rest)))
  {
  }

  /** A blank, a form feed and a newline hold no number. */
  lemma FormFeedSkipped(rest: string)
    requires rest == " " + [12 as char] + "\n"
    ensures ReadAll(rest) == []
  {
    assert SkipSpaces(rest[2..]) == [];
  }

  // ---- pbc ---------------------------------------------------------------------------

  lemma PbcGather(p: string, t: string, v: string, a: string, e: string)
    ensures (p + t) + v + " " + a + e == p + (t + v + " " + a + e)
  {
  }

  /** A pbc line is "pbc", " #", the id, a blank, the message and the newline. */
  lemma PbcLayout(p: SW.ServerPlayer, arg: string)
    ensures Params(BC.PbcText(p, arg)) == " #" + IntToString(p.id) + " " + arg + "\n"
  {
    assert "pbc #" == "pbc" + " #";
    PbcGather("pbc", " #", IntToString(p.id), arg, "\n");
    DropPrefixThree("pbc", " #" + IntToString(p.id) + " " + arg + "\n");
  }

  /** Removing '#' from " #", a number and a blank leaves the blank, the number and the blank. */
  lemma SharpHead(v: string)
    requires '#' !in v
    ensures Unsharped(" #" + v + " ") == " " + v + " "
  {
    SharpDropped(v + " ");
    assert " #" + v + " " == " #" + (v + " ");
  }

  /** After removing '#', a pbc line's parameters are a blank, the id, a blank, the message without '#' and the newline. */
  lemma PbcParams(p: SW.ServerPlayer, arg: string)
    ensures Unsharped(Params(BC.PbcText(p, arg))) == " " + (IntToString(p.id) + (" " + Unsharped(arg) + "\n"))
  {
    var v := IntToString(p.id);
    PbcLayout(p, arg);
    IntToStringWithout(p.id, '#');
    SharpHead(v);
    UnsharpedThree(" #" + v + " ", arg, "\n");
    Regroup4(" ", v, " " + Unsharped(arg), "\n");
    assert " " + v + " " + Unsharped(arg) == " " + v + (" " + Unsharped(arg));
  }

  /** Removing '#' from three pieces, the last without '#'. */
  lemma UnsharpedThree(a: string, b: string, e: string)
    requires '#' !in e
    ensures Unsharped(a + b + e) == Unsharped(a) + Unsharped(b) + e
  {
    RemoveAllAppend(a + b, e, '#');
    RemoveAllAppend(a, b, '#');
    RemoveAllAbsent(e, '#');
  }

  /** One number read after a blank, the stream left at the blank behind it. */
  lemma ReadsFirstNumber(v: int, tail: string)
    requires tail == [] || IsSpace(tail[0])
    ensures Reads(" " + (IntToString(v) + tail), 1) == (Slotted([v]), Some(tail))
  {
    var u := IntToString(v) + tail;
    ReadIntAfterSpace(u);
    ReadIntOfIntToString(v, tail);
    ReadsOne(" " + u, v, tail);
  }

  /** A single read that finds v fills one slot with v. */
  lemma ReadsOne(t: string, v: int, tail: string)
    requires ReadInt(t) == Some((v, tail))
    ensures Reads(t, 1) == (Slotted([v]), Some(tail))
  {
    ReadIntsStep(t, v, tail, 0, [], tail);
    assert [v] + [] == [v];
    ReadsNumbers(t, 1, [v], tail);
  }

  /** handlePlayerBroadcast on parameters whose id is read and leaves the rest. */
  lemma BroadcastOf(params: string, id: int, tail: string)
    requires Reads(Unsharped(params), 1) == (Slotted([id]), Some(tail))
    ensures BroadcastCall(params) == Some(PlayerBroadcast(id, WordOrEmpty(tail)))
  {
  }

  /**
   * handlePlayerBroadcast as written: `>> message` stops at the first blank,
   * and every '#' of the message was removed with the one before the id, so
   * the renderer gets the first word of the message without its '#'.
   */
  lemma BroadcastRoundTrip(p: SW.ServerPlayer, arg: string)
    ensures BroadcastCall(Params(BC.PbcText(p, arg))) == Some(PlayerBroadcast(p.id, WordOrEmpty(" " + Unsharped(arg) + "\n")))
  {
    var tail := " " + Unsharped(arg) + "\n";
    PbcParams(p, arg);
    ReadsFirstNumber(p.id, tail);
    BroadcastOf(Params(BC.PbcText(p, arg)), p.id, tail);
  }

  /** The first word of a message of a word, a blank and more. */
  lemma FirstWord(word: string, more: string)
    requires TeamWord(word)
    ensures WordOrEmpty(" " + (word + " " + more) + "\n") == word
  {
    var tail := " " + more + "\n";
    assert tail[0] == ' ';
    ReadWordOfWord(word, tail);
    WordAssoc(" ", word, " ", more, "\n");
  }

  lemma WordAssoc(s: string, w: string, b: string, m: string, e: string)
    ensures s + (w + b + m) + e == s + w + (b + m + e)
  {
  }

  /** A message of a word, a blank and more reaches the renderer as that word alone. */
  lemma BroadcastKeepsFirstWord(p: SW.ServerPlayer, word: string, more: string)
    requires TeamWord(word) && '#' !in more
    ensures BroadcastCall(Params(BC.PbcText(p, word + " " + more))) == Some(PlayerBroadcast(p.id, word))
  {
    var arg := word + " " + more;
    BroadcastRoundTrip(p, arg);
    RemoveAllAbsent(arg, '#');
    FirstWord(word, more);
  }

  /** The end of the line after a message without a newline is just after the message. */
  lemma LineOfMessage(arg: string)
    requires '\n' !in arg
    ensures LineAfterBlank(" " + arg + "\n") == arg
  {
    var t := arg + "\n";
    assert (" " + arg + "\n")[1..] == t;
    assert t[|arg|] == '\n';
    assert t[..|arg|] == arg;
  }

  /** The corrected handler gives the renderer the whole message, whatever blanks or '#' it holds. */
  lemma BroadcastCorrectedRoundTrip(p: SW.ServerPlayer, arg: string)
    requires '\n' !in arg
    ensures BroadcastCallCorrected(Params(BC.PbcText(p, arg))) == Some(PlayerBroadcast(p.id, arg))
  {
    var params := Params(BC.PbcText(p, arg));
    var tail := " " + arg + "\n";
    PbcLayout(p, arg);
    assert params == " #" + (IntToString(p.id) + tail);
    assert params[2..] == IntToString(p.id) + tail;
    ReadIntOfIntToString(p.id, tail);
    LineOfMessage(arg);
  }
}
