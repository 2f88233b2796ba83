/**
 * Forward, Right and Left: once the wait completes the player steps or
 * turns, leaves its action, is told "ok\n", and the graphical clients get
 * its new position as "ppo #id x y o\n".
 */
module MoveCommand {
  import opened Text
  import opened Orientation
  import opened Players
  import opened ServerWorld
  import opened ClientCommand

  /** "ppo #id x y o\n", with the orientation sent as its index plus one (1 to 4). */
  function PpoText(p: ServerPlayer): string
  {
    "ppo #" + IntToString(p.id) + " " + IntToString(p.x) + " " + IntToString(p.y) + " " + IntToString(Index(p.orientation) + 1) + "\n"
  }

  /** stepForward on the map: one tile in the facing direction, wrapping at the edges. */
  function Stepped(p: ServerPlayer, w: nat, h: nat): (r: ServerPlayer)
    requires w > 0 && h > 0
    ensures (r.x, r.y) == ForwardPosition(p.x, p.y, p.orientation, w, h)
    ensures r == p.(x := r.x, y := r.y)
  {
    var (x, y) := ForwardPosition(p.x, p.y, p.orientation, w, h);
    p.(x := x, y := y)
  }

  /** lookRight (clockwise) or lookLeft (counter-clockwise); the position stays. */
  function Turned(p: ServerPlayer, right: bool): (r: ServerPlayer)
    ensures r.orientation == if right then Next(p.orientation) else Prev(p.orientation)
    ensures r == p.(orientation := r.orientation)
  {
    p.(orientation := if right then Next(p.orientation) else Prev(p.orientation))
  }

  /** A step forward, an about-turn and a step forward bring a player on the map back to its tile. */
  lemma StepBack(p: ServerPlayer, w: nat, h: nat)
    requires w > 0 && h > 0 && 0 <= p.x < w && 0 <= p.y < h
    ensures var q := Stepped(p, w, h).(orientation := Opposite(p.orientation));
      (Stepped(q, w, h).x, Stepped(q, w, h).y) == (p.x, p.y)
  {
    var v := DirectionVector(p.orientation);
    DirectionOpposite(p.orientation);
    var q := Stepped(p, w, h).(orientation := Opposite(p.orientation));
    WrapStep(q.x - v.0, w);
    WrapStep(q.y - v.1, h);
  }

  /** Right then Left, or Left then Right, restores the orientation; four Rights are a full turn. */
  lemma TurnsUndo(p: ServerPlayer)
    ensures Turned(Turned(p, true), false) == p && Turned(Turned(p, false), true) == p
    ensures Turned(Turned(Turned(Turned(p, true), true), true), true) == p
  {
    var o := p.orientation;
    assert Turned(Turned(p, true), false) == p.(orientation := Prev(Next(o)));
    assert Turned(Turned(p, false), true) == p.(orientation := Next(Prev(o)));
    assert Turned(Turned(Turned(Turned(p, true), true), true), true) == p.(orientation := Next(Next(Next(Next(o)))));
    match o
    case North =>
    case East =>
    case South =>
    case West =>
  }

  /** handleForward for player i. */
  method HandleForward(h: CommandHandler, i: nat, ejectedMeanwhile: bool)
    requires i < |h.players| && h.width > 0 && h.height > 0
    modifies h`players, h`sent
    ensures WaitCompletes(old(h.players[i]), Forward, ejectedMeanwhile) ==>
      h.players == old(h.players)[i := Stepped(Waited(old(h.players[i]), Forward, ejectedMeanwhile), h.width, h.height).(inAction := false)] &&
      h.sent == old(h.sent) + [Sent(old(h.players[i]).socket, "ok\n")]
                            + ToEach(GuiSockets(h.teams, old(h.players)), PpoText(Stepped(old(h.players[i]), h.width, h.height)))
    ensures !WaitCompletes(old(h.players[i]), Forward, ejectedMeanwhile) ==>
      h.players == old(h.players)[i := Waited(old(h.players[i]), Forward, ejectedMeanwhile)] && h.sent == old(h.sent)
  {
    ghost var P := h.players;
    var completed := WaitCommand(h, i, Forward, ejectedMeanwhile);
    if !completed {
      return;
    }
    var q := Stepped(h.players[i], h.width, h.height);
    h.players := h.players[i := q];
    assert h.players == P[i := q];
    GuiSocketsUpdate(h.teams, P, i, q);
    assert PpoText(q) == PpoText(Stepped(P[i], h.width, h.height));
    Acknowledge(h, i, PpoText(q));
  }

  /** handleRight for player i: a quarter turn clockwise. */
  method HandleRight(h: CommandHandler, i: nat, ejectedMeanwhile: bool)
    requires i < |h.players|
    modifies h`players, h`sent
    ensures WaitCompletes(old(h.players[i]), Right, ejectedMeanwhile) ==>
      h.players == old(h.players)[i := Turned(Waited(old(h.players[i]), Right, ejectedMeanwhile), true).(inAction := false)] &&
      h.sent == old(h.sent) + [Sent(old(h.players[i]).socket, "ok\n")]
                            + ToEach(GuiSockets(h.teams, old(h.players)), PpoText(Turned(old(h.players[i]), true)))
    ensures !WaitCompletes(old(h.players[i]), Right, ejectedMeanwhile) ==>
      h.players == old(h.players)[i := Waited(old(h.players[i]), Right, ejectedMeanwhile)] && h.sent == old(h.sent)
  {
    ghost var P := h.players;
    var completed := WaitCommand(h, i, Right, ejectedMeanwhile);
    if !completed {
      return;
    }
    var q := Turned(h.players[i], true);
    h.players := h.players[i := q];
    assert h.players == P[i := q];
    GuiSocketsUpdate(h.teams, P, i, q);
    assert PpoText(q) == PpoText(Turned(P[i], true));
    Acknowledge(h, i, PpoText(q));
  }

  /** handleLeft for player i: a quarter turn counter-clockwise. */
  method HandleLeft(h: CommandHandler, i: nat, ejectedMeanwhile: bool)
    requires i < |h.players|
    modifies h`players, h`sent
    ensures WaitCompletes(old(h.players[i]), Left, ejectedMeanwhile) ==>
      h.players == old(h.players)[i := Turned(Waited(old(h.players[i]), Left, ejectedMeanwhile), false).(inAction := false)] &&
      h.sent == old(h.sent) + [Sent(old(h.players[i]).socket, "ok\n")]
                            + ToEach(GuiSockets(h.teams, old(h.players)), PpoText(Turned(old(h.players[i]), false)))
    ensures !WaitCompletes(old(h.players[i]), Left, ejectedMeanwhile) ==>
      h.players == old(h.players)[i := Waited(old(h.players[i]), Left, ejectedMeanwhile)] && h.sent == old(h.sent)
  {
    ghost var P := h.players;
    var completed := WaitCommand(h, i, Left, ejectedMeanwhile);
    if !completed {
      return;
    }
    var q := Turned(h.players[i], false);
    h.players := h.players[i := q];
    assert h.players == P[i := q];
    GuiSocketsUpdate(h.teams, P, i, q);
    assert PpoText(q) == PpoText(Turned(P[i], false));
    Acknowledge(h, i, PpoText(q));
  }
}
