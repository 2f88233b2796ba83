/**
 * Broadcast: every other connected client hears the text, tagged with the
 * direction the sound comes from as seen by the receiver: 0 on the sender's
 * own tile, otherwise 1 for straight ahead and then counter-clockwise, 3 on
 * the left, 5 behind, 7 on the right. The sound takes the shorter way round
 * the torus in each coordinate.
 */
module BroadcastCommand {
  import opened Text
  import opened CppInt
  import opened Orientation
  import opened Players
  import opened ServerWorld
  import opened ClientCommand

  // ---- Distance on the torus ------------------------------------------------------

  /**
   * _computeBroadcastDistance in one coordinate: the difference d, or d
   * taken the other way round a map of size n when that is strictly shorter.
   */
  function BroadcastDistance(d: int, n: nat): (r: int)
    requires n > 0
    ensures r == d || r == d - n || r == d + n
    ensures Abs(r) <= Abs(d)
    ensures Abs(d) < n ==> 2 * Abs(r) <= n && Abs(r) <= Abs(d - n) && Abs(r) <= Abs(d + n)
  {
    var round := if d > 0 then d - n else d + n;
    if Abs(round) < Abs(d) then round else d
  }

  /** The offset from the receiver's tile to the sender's, each coordinate the shorter way round. */
  function Distance(sender: ServerPlayer, receiver: ServerPlayer, w: nat, h: nat): (int, int)
    requires w > 0 && h > 0
  {
    (BroadcastDistance(sender.x - receiver.x, w), BroadcastDistance(sender.y - receiver.y, h))
  }

  // ---- From an offset to a direction ----------------------------------------------

  /**
   * _getSoundCardinalPoint: the direction of an offset in the receiver's own
   * frame, where a negative relY is in front and a positive relX on the right.
   */
  function CardinalPoint(relX: int, relY: int): (d: SoundDirection)
    ensures d != SamePosition
  {
    if relY < 0 then
      (if relX < 0 then NorthWest else if relX > 0 then NorthEast else SoundDirection.North)
    else if relY > 0 then
      (if relX < 0 then SouthWest else if relX > 0 then SouthEast else SoundDirection.South)
    else if relX < 0 then SoundDirection.West
    else SoundDirection.East
  }

  /**
   * The front three directions are exactly the offsets ahead, the back three
   * those behind, the left three those to the left; an offset of zero is
   * reported as East.
   */
  lemma CardinalPointSides(relX: int, relY: int)
    ensures var d := CardinalPoint(relX, relY);
      (relY < 0 <==> d in {SoundDirection.North, NorthWest, NorthEast}) &&
      (relY > 0 <==> d in {SoundDirection.South, SouthWest, SouthEast}) &&
      (relX < 0 <==> d in {SoundDirection.West, NorthWest, SouthWest}) &&
      (d in {SoundDirection.East, NorthEast, SouthEast} <==> relX > 0 || (relX == 0 && relY == 0))
  {
  }

  /** Turning the offset a quarter turn counter-clockwise in the receiver's frame moves the direction two steps on. */
  lemma CardinalTurn(a: int, b: int)
    requires a != 0 || b != 0
    ensures SoundCode(CardinalPoint(b, -a)) == (SoundCode(CardinalPoint(a, b)) + 1) % 8 + 1
  {
  }

  /**
   * The switch of _computeSoundDirection, as written: North keeps the
   * offset, East maps (dx, dy) to (-dy, dx), South negates it, West maps it
   * to (dy, -dx).
   */
  function RotateAsWritten(o: Orientation, dx: int, dy: int): (r: (int, int))
    ensures o == Orientation.North ==> r == (dx, dy)
    ensures o == Orientation.South ==> r == (-dx, -dy)
  {
    match o
    case North => (dx, dy)
    case East => (-dy, dx)
    case South => (-dx, -dy)
    case West => (dy, -dx)
  }

  /** The offset in the frame of a receiver facing o (see RotateComponents). */
  function Rotate(o: Orientation, dx: int, dy: int): (int, int)
  {
    match o
    case North => (dx, dy)
    case East => (dy, -dx)
    case South => (-dx, -dy)
    case West => (-dy, dx)
  }

  /** relX is the offset's component towards the receiver's right, relY minus its component towards its front. */
  lemma RotateComponents(o: Orientation, dx: int, dy: int)
    ensures var f := DirectionVector(o);
      var right := DirectionVector(Next(o));
      Rotate(o, dx, dy) == (dx * right.0 + dy * right.1, -(dx * f.0 + dy * f.1))
  {
    match o
    case North =>
    case East =>
    case South =>
    case West =>
  }

  /** The written switch agrees for North and South and turns the East and West frames half round. */
  lemma RotateAsWrittenMirrors(o: Orientation, dx: int, dy: int)
    ensures (o == Orientation.North || o == Orientation.South) ==> RotateAsWritten(o, dx, dy) == Rotate(o, dx, dy)
    ensures (o == Orientation.East || o == Orientation.West) ==>
      RotateAsWritten(o, dx, dy) == (-Rotate(o, dx, dy).0, -Rotate(o, dx, dy).1)
  {
  }

  /** A receiver that turns right sees every offset a quarter turn counter-clockwise. */
  lemma RotateNext(o: Orientation, dx: int, dy: int)
    ensures Rotate(Next(o), dx, dy) == (Rotate(o, dx, dy).1, -Rotate(o, dx, dy).0)
  {
  }

  /** _computeSoundDirection as written. */
  function SoundDirectionAsWritten(sender: ServerPlayer, receiver: ServerPlayer, w: nat, h: nat): (d: SoundDirection)
    requires w > 0 && h > 0
    ensures d == SamePosition <==> sender.x == receiver.x && sender.y == receiver.y
  {
    if sender.x == receiver.x && sender.y == receiver.y then SamePosition
    else
      var d := Distance(sender, receiver, w, h);
      var rel := RotateAsWritten(receiver.orientation, d.0, d.1);
      CardinalPoint(rel.0, rel.1)
  }

  /** _computeSoundDirection with the East and West frames the right way round. */
  function SoundDirectionOf(sender: ServerPlayer, receiver: ServerPlayer, w: nat, h: nat): (d: SoundDirection)
    requires w > 0 && h > 0
    ensures d == SamePosition <==> sender.x == receiver.x && sender.y == receiver.y
  {
    if sender.x == receiver.x && sender.y == receiver.y then SamePosition
    else
      var d := Distance(sender, receiver, w, h);
      var rel := Rotate(receiver.orientation, d.0, d.1);
      CardinalPoint(rel.0, rel.1)
  }

  /** Off the sender's tile, the offset is not zero in both coordinates. */
  lemma DistanceNonZero(sender: ServerPlayer, receiver: ServerPlayer, w: nat, h: nat)
    requires w > 0 && h > 0
    requires 0 <= sender.x < w && 0 <= sender.y < h && 0 <= receiver.x < w && 0 <= receiver.y < h
    requires sender.x != receiver.x || sender.y != receiver.y
    ensures Distance(sender, receiver, w, h) != (0, 0)
  {
  }

  /** A receiver on the map that turns right hears a sender on another tile two directions further on. */
  lemma TurnRightShiftsSound(sender: ServerPlayer, receiver: ServerPlayer, w: nat, h: nat)
    requires w > 0 && h > 0
    requires 0 <= sender.x < w && 0 <= sender.y < h && 0 <= receiver.x < w && 0 <= receiver.y < h
    requires sender.x != receiver.x || sender.y != receiver.y
    ensures var turned := receiver.(orientation := Next(receiver.orientation));
      SoundCode(SoundDirectionOf(sender, turned, w, h)) == (SoundCode(SoundDirectionOf(sender, receiver, w, h)) + 1) % 8 + 1
  {
    var turned := receiver.(orientation := Next(receiver.orientation));
    var d := Distance(sender, receiver, w, h);
    assert Distance(sender, turned, w, h) == d;
    DistanceNonZero(sender, receiver, w, h);
    var rel := Rotate(receiver.orientation, d.0, d.1);
    RotateNonZero(receiver.orientation, d.0, d.1);
    RotateNext(receiver.orientation, d.0, d.1);
    assert SoundDirectionOf(sender, receiver, w, h) == CardinalPoint(rel.0, rel.1);
    assert SoundDirectionOf(sender, turned, w, h) == CardinalPoint(rel.1, -rel.0);
    CardinalTurn(rel.0, rel.1);
  }

  /**
   * As written, a right turn moves the heard direction two steps the other
   * way round: the East and West frames are mirrored, so every turn also
   * turns the offset half round.
   */
  lemma TurnRightShiftsSoundAsWritten(sender: ServerPlayer, receiver: ServerPlayer, w: nat, h: nat)
    requires w > 0 && h > 0
    requires 0 <= sender.x < w && 0 <= sender.y < h && 0 <= receiver.x < w && 0 <= receiver.y < h
    requires sender.x != receiver.x || sender.y != receiver.y
    ensures var turned := receiver.(orientation := Next(receiver.orientation));
      SoundCode(SoundDirectionAsWritten(sender, turned, w, h)) == (SoundCode(SoundDirectionAsWritten(sender, receiver, w, h)) + 5) % 8 + 1
  {
    var turned := receiver.(orientation := Next(receiver.orientation));
    var d := Distance(sender, receiver, w, h);
    assert Distance(sender, turned, w, h) == d;
    DistanceNonZero(sender, receiver, w, h);
    var rel := RotateAsWritten(receiver.orientation, d.0, d.1);
    RotateAsWrittenNext(receiver.orientation, d.0, d.1);
    assert SoundDirectionAsWritten(sender, receiver, w, h) == CardinalPoint(rel.0, rel.1);
    assert SoundDirectionAsWritten(sender, turned, w, h) == CardinalPoint(-rel.1, rel.0);
    CardinalTurnBack(rel.0, rel.1);
  }

  /** The written switch for the next orientation turns the offset a quarter turn clockwise, and loses none. */
  lemma RotateAsWrittenNext(o: Orientation, dx: int, dy: int)
    ensures RotateAsWritten(Next(o), dx, dy) == (-RotateAsWritten(o, dx, dy).1, RotateAsWritten(o, dx, dy).0)
    ensures (dx, dy) != (0, 0) ==> RotateAsWritten(o, dx, dy) != (0, 0)
  {
  }

  /** Turning the offset a quarter turn clockwise in the receiver's frame moves the direction two steps back. */
  lemma CardinalTurnBack(a: int, b: int)
    requires a != 0 || b != 0
    ensures SoundCode(CardinalPoint(-b, a)) == (SoundCode(CardinalPoint(a, b)) + 5) % 8 + 1
  {
  }

  /** The frame change loses no offset. */
  lemma RotateNonZero(o: Orientation, dx: int, dy: int)
    requires (dx, dy) != (0, 0)
    ensures Rotate(o, dx, dy) != (0, 0)
  {
  }

  /**
   * A sender on the neighbouring tile in direction Add(o, k) of a receiver
   * facing o: k = 0 is heard ahead (1), 1 on the right (7), 2 behind (5), 3 on
   * the left (3), on any map at least three tiles wide and high.
   */
  lemma NeighbourHeard(sender: ServerPlayer, receiver: ServerPlayer, w: nat, h: nat, k: nat)
    requires w >= 3 && h >= 3 && k < 4
    requires 0 <= receiver.x < w && 0 <= receiver.y < h
    requires (sender.x, sender.y) == ForwardPosition(receiver.x, receiver.y, Add(receiver.orientation, k), w, h)
    ensures SoundCode(SoundDirectionOf(sender, receiver, w, h)) == [1, 7, 5, 3][k]
  {
    var v := DirectionVector(Add(receiver.orientation, k));
    NeighbourDistance(sender.x, receiver.x, v.0, w);
    NeighbourDistance(sender.y, receiver.y, v.1, h);
    assert Distance(sender, receiver, w, h) == v;
    var rel := Rotate(receiver.orientation, v.0, v.1);
    RotateTurnedDirection(receiver.orientation, k);
    assert SoundDirectionOf(sender, receiver, w, h) == CardinalPoint(rel.0, rel.1);
    if k == 0 {
      assert rel == (0, -1);
    } else if k == 1 {
      assert rel == (1, 0);
    } else if k == 2 {
      assert rel == (0, 1);
    } else {
      assert rel == (-1, 0);
    }
  }

  /**
   * The same neighbour as heard by handleBroadcast as written: a receiver
   * facing North or South hears it as above, one facing East or West hears
   * ahead as behind (5), right as left (3), behind as ahead (1) and left as
   * right (7).
   */
  lemma NeighbourHeardAsWritten(sender: ServerPlayer, receiver: ServerPlayer, w: nat, h: nat, k: nat)
    requires w >= 3 && h >= 3 && k < 4
    requires 0 <= receiver.x < w && 0 <= receiver.y < h
    requires (sender.x, sender.y) == ForwardPosition(receiver.x, receiver.y, Add(receiver.orientation, k), w, h)
    ensures receiver.orientation in {Orientation.North, Orientation.South} ==>
      SoundCode(SoundDirectionAsWritten(sender, receiver, w, h)) == [1, 7, 5, 3][k]
    ensures receiver.orientation in {Orientation.East, Orientation.West} ==>
      SoundCode(SoundDirectionAsWritten(sender, receiver, w, h)) == [5, 3, 1, 7][k]
  {
    var v := DirectionVector(Add(receiver.orientation, k));
    NeighbourDistance(sender.x, receiver.x, v.0, w);
    NeighbourDistance(sender.y, receiver.y, v.1, h);
    assert Distance(sender, receiver, w, h) == v;
    var rel := RotateAsWritten(receiver.orientation, v.0, v.1);
    RotateTurnedDirection(receiver.orientation, k);
    RotateAsWrittenMirrors(receiver.orientation, v.0, v.1);
    assert SoundDirectionAsWritten(sender, receiver, w, h) == CardinalPoint(rel.0, rel.1);
    var sign := if receiver.orientation in {Orientation.North, Orientation.South} then 1 else -1;
    if k == 0 {
      assert rel == (0, -sign);
    } else if k == 1 {
      assert rel == (sign, 0);
    } else if k == 2 {
      assert rel == (0, sign);
    } else {
      assert rel == (-sign, 0);
    }
  }

  /** The step of direction Add(o, k), seen by a player facing o: ahead, right, behind, left. */
  lemma RotateTurnedDirection(o: Orientation, k: nat)
    requires k < 4
    ensures var v := DirectionVector(Add(o, k));
      Rotate(o, v.0, v.1) == [(0, -1), (1, 0), (0, 1), (-1, 0)][k]
  {
    if k == 0 {
      assert Add(o, k) == o;
    } else if k == 1 {
      assert Add(o, k) == Next(o);
    } else if k == 2 {
      assert Add(o, k) == Opposite(o);
    } else {
      assert Add(o, k) == Prev(o);
    }
  }

  /** One step of -1, 0 or 1 along a coordinate, wrapped, is at that offset the shorter way round. */
  lemma NeighbourDistance(s: int, r: int, v: int, n: nat)
    requires n >= 3 && 0 <= r < n && -1 <= v <= 1
    requires s == (r + v) % n
    ensures BroadcastDistance(s - r, n) == v
  {
    WrapStep(r + v, n);
  }

  /**
   * The written switch tells a receiver facing East that a sender on the
   * tile in front of it is behind it.
   */
  lemma AsWrittenHearsAheadAsBehind(sender: ServerPlayer, receiver: ServerPlayer)
    requires receiver.x == 0 && receiver.y == 0 && receiver.orientation == Orientation.East
    requires sender.x == 1 && sender.y == 0
    ensures SoundDirectionAsWritten(sender, receiver, 10, 10) == SoundDirection.South
    ensures SoundDirectionOf(sender, receiver, 10, 10) == SoundDirection.North
  {
  }

  // ---- The command ----------------------------------------------------------------

  /** "message K, text\n" */
  function MessageText(k: nat, arg: string): string
  {
    "message " + NatToString(k) + ", " + arg + "\n"
  }

  /** "pbc #id text\n" for the graphical clients. */
  function PbcText(p: ServerPlayer, arg: string): string
  {
    "pbc #" + IntToString(p.id) + " " + arg + "\n"
  }

  /** What player p hears of the broadcast: nothing when it is on the sender's socket. */
  function HeardBy(p: ServerPlayer, sender: ServerPlayer, arg: string, w: nat, h: nat): (r: seq<Sent>)
    requires w > 0 && h > 0
    ensures p.socket == sender.socket <==> r == []
  {
    if p.socket != sender.socket
    then [Sent(p.socket, MessageText(SoundCode(SoundDirectionAsWritten(sender, p, w, h)), arg))]
    else []
  }

  /** The messages the first n players get, in loop order: all but those on the sender's socket. */
  function BroadcastMessages(players: seq<ServerPlayer>, sender: ServerPlayer, arg: string, w: nat, h: nat, n: nat): seq<Sent>
    requires w > 0 && h > 0 && n <= |players|
  {
    if n == 0 then []
    else BroadcastMessages(players, sender, arg, w, h, n - 1) + HeardBy(players[n - 1], sender, arg, w, h)
  }

  /** The sender never hears its own broadcast. */
  lemma {:induction false} BroadcastSkipsSender(players: seq<ServerPlayer>, sender: ServerPlayer, arg: string, w: nat, h: nat, n: nat)
    requires w > 0 && h > 0 && n <= |players|
    ensures forall m :: m in BroadcastMessages(players, sender, arg, w, h, n) ==> m.socket != sender.socket
  {
    if n > 0 {
      BroadcastSkipsSender(players, sender, arg, w, h, n - 1);
    }
  }

  /** Every other player among the first n hears the text, tagged with its own direction to the sender. */
  lemma {:induction false} BroadcastReaches(players: seq<ServerPlayer>, sender: ServerPlayer, arg: string, w: nat, h: nat, n: nat, k: nat)
    requires w > 0 && h > 0 && k < n <= |players| && players[k].socket != sender.socket
    ensures Sent(players[k].socket, MessageText(SoundCode(SoundDirectionAsWritten(sender, players[k], w, h)), arg))
            in BroadcastMessages(players, sender, arg, w, h, n)
  {
    if k < n - 1 {
      BroadcastReaches(players, sender, arg, w, h, n - 1, k);
    }
  }

  /**
   * The wait changes no socket, position or orientation: the broadcast is
   * the same whether computed before or after it.
   */
  lemma {:induction false} BroadcastWaited(players: seq<ServerPlayer>, s: nat, q: ServerPlayer, arg: string, w: nat, h: nat, n: nat)
    requires w > 0 && h > 0 && s < |players| && n <= |players|
    requires q.socket == players[s].socket && q.x == players[s].x && q.y == players[s].y && q.orientation == players[s].orientation
    ensures BroadcastMessages(players[s := q], q, arg, w, h, n) == BroadcastMessages(players, players[s], arg, w, h, n)
  {
    if n > 0 {
      BroadcastWaited(players, s, q, arg, w, h, n - 1);
      HeardBySame(players[s := q][n - 1], players[n - 1], q, players[s], arg, w, h);
    }
  }

  /** Only the socket, the tile and the facing of the players decide what is heard. */
  lemma HeardBySame(p: ServerPlayer, p': ServerPlayer, sender: ServerPlayer, sender': ServerPlayer, arg: string, w: nat, h: nat)
    requires w > 0 && h > 0
    requires p.socket == p'.socket && p.x == p'.x && p.y == p'.y && p.orientation == p'.orientation
    requires sender.socket == sender'.socket && sender.x == sender'.x && sender.y == sender'.y
    ensures HeardBy(p, sender, arg, w, h) == HeardBy(p', sender', arg, w, h)
  {
    assert Distance(sender, p, w, h) == Distance(sender', p', w, h);
  }

  /** The loop of handleBroadcast: each player on another socket, in order, gets the message. */
  method SendBroadcast(h: CommandHandler, sender: ServerPlayer, arg: string)
    requires h.width > 0 && h.height > 0
    modifies h`sent
    ensures h.sent == old(h.sent) + BroadcastMessages(h.players, sender, arg, h.width, h.height, |h.players|)
  {
    var players := h.players;
    ghost var S := h.sent;
    var k := 0;
    while k < |players|
      invariant k <= |players|
      invariant h.sent == S + BroadcastMessages(players, sender, arg, h.width, h.height, k)
    {
      HearOne(h, players[k], sender, arg);
      BroadcastStep(S, players, sender, arg, h.width, h.height, k);
      k := k + 1;
    }
  }

  lemma BroadcastStep(S: seq<Sent>, players: seq<ServerPlayer>, sender: ServerPlayer, arg: string, w: nat, h: nat, k: nat)
    requires w > 0 && h > 0 && k < |players|
    ensures S + BroadcastMessages(players, sender, arg, w, h, k) + HeardBy(players[k], sender, arg, w, h)
         == S + BroadcastMessages(players, sender, arg, w, h, k + 1)
  {
  }

  /** One turn of that loop: a player on another socket gets the message with its own direction. */
  method HearOne(h: CommandHandler, p: ServerPlayer, sender: ServerPlayer, arg: string)
    requires h.width > 0 && h.height > 0
    modifies h`sent
    ensures h.sent == old(h.sent) + HeardBy(p, sender, arg, h.width, h.height)
  {
    if p.socket != sender.socket {
      var text := MessageText(SoundCode(SoundDirectionAsWritten(sender, p, h.width, h.height)), arg);
      h.sent := h.sent + [Sent(p.socket, text)];
    }
  }

  /**
   * handleBroadcast for player s: once the wait completes, every player on
   * another socket, team by team, gets the message with its direction; then
   * the sender leaves its action, gets "ok\n", and the graphical clients
   * get "pbc".
   */
  method HandleBroadcast(h: CommandHandler, s: nat, arg: string, ejectedMeanwhile: bool)
    requires s < |h.players| && h.width > 0 && h.height > 0
    modifies h`players, h`sent
    ensures WaitCompletes(old(h.players[s]), Broadcast, ejectedMeanwhile) ==>
      h.players == old(h.players)[s := Waited(old(h.players[s]), Broadcast, ejectedMeanwhile).(inAction := false)] &&
      h.sent == old(h.sent) + BroadcastMessages(old(h.players), old(h.players[s]), arg, h.width, h.height, |old(h.players)|)
                            + [Sent(old(h.players[s]).socket, "ok\n")]
                            + ToEach(GuiSockets(h.teams, old(h.players)), PbcText(old(h.players[s]), arg))
    ensures !WaitCompletes(old(h.players[s]), Broadcast, ejectedMeanwhile) ==>
      h.players == old(h.players)[s := Waited(old(h.players[s]), Broadcast, ejectedMeanwhile)] && h.sent == old(h.sent)
  {
    ghost var P0 := h.players;
    var completed := WaitCommand(h, s, Broadcast, ejectedMeanwhile);
    if !completed {
      return;
    }
    var sender := h.players[s];
    BroadcastWaited(P0, s, sender, arg, h.width, h.height, |P0|);
    SendBroadcast(h, sender, arg);
    GuiSocketsUpdate(h.teams, P0, s, sender);
    assert PbcText(sender, arg) == PbcText(P0[s], arg);
    Acknowledge(h, s, PbcText(sender, arg));
  }
}
