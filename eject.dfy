/**
 * Eject: every other player on the pusher's tile is interrupted and pushed
 * one tile in the pusher's direction, told where the push came from, and
 * announced to the graphical clients.
 */
module EjectCommand {
  import opened Text
  import opened Orientation
  import opened CppInt
  import opened Players
  import opened ServerWorld
  import opened ClientCommand

  // ---- Who is on a tile -------------------------------------------------------

  /** A player _getPlayerOnTile reports: on (x, y), in a team not named GRAPHIC. */
  predicate OnTile(teams: seq<Team>, p: ServerPlayer, x: int, y: int)
  {
    !IsGui(teams, p) && p.x == x && p.y == y
  }

  /** The indices below n of the players on (x, y), in order. */
  function OnTileBelow(teams: seq<Team>, players: seq<ServerPlayer>, n: nat, x: int, y: int): (r: seq<nat>)
    requires n <= |players|
    ensures forall k :: 0 <= k < |r| ==> r[k] < n
  {
    if n == 0 then []
    else OnTileBelow(teams, players, n - 1, x, y) + if OnTile(teams, players[n - 1], x, y) then [n - 1] else []
  }

  /** _getPlayerOnTile(x, y): the players on the tile, team by team and member by member. */
  function PlayersOnTile(teams: seq<Team>, players: seq<ServerPlayer>, x: int, y: int): (r: seq<nat>)
    ensures forall k :: 0 <= k < |r| ==> r[k] < |players|
  {
    OnTileBelow(teams, players, |players|, x, y)
  }

  lemma {:induction false} OnTileBelowSpec(teams: seq<Team>, players: seq<ServerPlayer>, n: nat, x: int, y: int)
    requires n <= |players|
    ensures forall i :: i in OnTileBelow(teams, players, n, x, y) <==> 0 <= i < n && OnTile(teams, players[i], x, y)
    ensures Ascending(OnTileBelow(teams, players, n, x, y))
  {
    if n > 0 {
      OnTileBelowSpec(teams, players, n - 1, x, y);
    }
  }

  /** The list holds exactly the non-graphical players on the tile, each once, in loop order. */
  lemma PlayersOnTileSpec(teams: seq<Team>, players: seq<ServerPlayer>, x: int, y: int)
    ensures forall i :: i in PlayersOnTile(teams, players, x, y) <==> 0 <= i < |players| && OnTile(teams, players[i], x, y)
    ensures Ascending(PlayersOnTile(teams, players, x, y))
  {
    OnTileBelowSpec(teams, players, |players|, x, y);
  }

  /** _getPlayerOnTile: the loop over the teams' members. */
  method GetPlayerOnTile(h: CommandHandler, x: int, y: int) returns (list: seq<nat>)
    ensures list == PlayersOnTile(h.teams, h.players, x, y)
  {
    list := [];
    var i := 0;
    while i < |h.players|
      invariant 0 <= i <= |h.players| && list == OnTileBelow(h.teams, h.players, i, x, y)
    {
      if OnTile(h.teams, h.players[i], x, y) {
        list := list + [i];
      }
      i := i + 1;
    }
  }

  // ---- One push ---------------------------------------------------------------

  /**
   * _sendExpulseMsg's direction: 1, 3, 5 or 7 for a pusher facing North,
   * East, South or West, found from the pusher's direction vector. The
   * ejected player's own orientation plays no part.
   */
  function ExpulseCode(pusher: Orientation): (k: nat)
    ensures k == 2 * Index(pusher) + 1
  {
    var v := DirectionVector(pusher);
    if v == (0, -1) then 1
    else if v == (1, 0) then 3
    else if v == (0, 1) then 5
    else if v == (-1, 0) then 7
    else 0
  }

  /** "eject: K", without a newline. */
  function ExpulseText(pusher: Orientation): string
  {
    "eject: " + NatToString(ExpulseCode(pusher))
  }

  /**
   * ejectPlayerForward's arithmetic: one step in the pusher's direction, and
   * a coordinate that reaches an edge (or 0) is taken as (c + size) % size.
   * On the map this is the torus step of stepForward.
   */
  function EjectPosition(x: int, y: int, o: Orientation, w: nat, h: nat): (r: (int, int))
    requires w > 0 && h > 0
    ensures 0 <= x < w && 0 <= y < h ==> r == ForwardPosition(x, y, o, w, h)
  {
    var (nx, ny) := match o
      case North => (x, y - 1)
      case East => (x + 1, y)
      case South => (x, y + 1)
      case West => (x - 1, y);
    EdgeWrap(nx, w);
    EdgeWrap(ny, h);
    (if nx >= w || nx <= 0 then Rem(nx + w, w) else nx,
     if ny >= h || ny <= 0 then Rem(ny + h, h) else ny)
  }

  /** The wrap of a coordinate that left [0, n) by one step agrees with the torus step. */
  lemma EdgeWrap(c: int, n: nat)
    requires n > 0
    ensures -1 <= c <= n ==> (if c >= n || c <= 0 then Rem(c + n, n) else c) == c % n
  {
    WrapStep(c, n);
    if c == -1 {
      WrapStep(n - 1, n);
    } else if c == 0 {
      WrapStep(n, n);
    } else if c == n {
      DoubleWrap(n);
    }
  }

  lemma DoubleWrap(n: nat)
    requires n > 0
    ensures (2 * n) % n == 0
  {
    var a := 2 * n;
    assert a == 2 * n + 0;
  }

  /** The ejected player: interrupted, and one tile further in the pusher's direction. */
  function Pushed(q: ServerPlayer, o: Orientation, w: nat, h: nat): (r: ServerPlayer)
    requires w > 0 && h > 0
    ensures r.interrupted && (r.x, r.y) == EjectPosition(q.x, q.y, o, w, h)
    ensures r.(interrupted := q.interrupted, x := q.x, y := q.y) == q
  {
    var (x, y) := EjectPosition(q.x, q.y, o, w, h);
    q.(interrupted := true, x := x, y := y)
  }

  /** ejectPlayerForward on player j, pushed by a player facing o: the move and the "eject: K" line. */
  method EjectPlayerForward(h: CommandHandler, j: nat, o: Orientation)
    requires j < |h.players| && h.width > 0 && h.height > 0
    modifies h`players, h`sent
    ensures h.players == old(h.players)[j := old(h.players[j]).(x := EjectPosition(old(h.players[j]).x, old(h.players[j]).y, o, h.width, h.height).0,
                                                                  y := EjectPosition(old(h.players[j]).x, old(h.players[j]).y, o, h.width, h.height).1)]
    ensures h.sent == old(h.sent) + [Sent(old(h.players[j]).socket, ExpulseText(o))]
  {
    var p := h.players[j];
    var (x, y) := EjectPosition(p.x, p.y, o, h.width, h.height);
    h.players := h.players[j := p.(x := x, y := y)];
    SendTo(h, p, ExpulseText(o));
  }

  // ---- The whole command -------------------------------------------------------

  /** Whether the pusher s ejects player j: j is on s's tile and is not s (compared by id). */
  predicate Ejects(teams: seq<Team>, players: seq<ServerPlayer>, s: nat, j: nat)
    requires s < |players| && j < |players|
  {
    OnTile(teams, players[j], players[s].x, players[s].y) && players[j].id != players[s].id
  }

  /** cur is players once the pushes of the first k listed players have been applied. */
  ghost predicate PushedUpTo(players: seq<ServerPlayer>, cur: seq<ServerPlayer>, list: seq<nat>, k: nat, s: nat, w: nat, h: nat)
    requires s < |players| && k <= |list| && w > 0 && h > 0
  {
    |cur| == |players| && forall j :: 0 <= j < |players| ==>
      cur[j] == if j in list[..k] && players[j].id != players[s].id then Pushed(players[j], players[s].orientation, w, h) else players[j]
  }

  /** The line the graphical clients get for an ejected player, without a newline. */
  function PexText(id: int): string
  {
    "pex " + IntToString(id)
  }

  /** The lines the loop sends for the listed players: "eject: K" to each ejected one, then "pex id" to the graphical clients. */
  function EjectSent(players: seq<ServerPlayer>, gui: seq<int>, list: seq<nat>, s: nat): seq<Sent>
    requires s < |players|
  {
    if list == [] then []
    else
      var n := |list| - 1;
      EjectSent(players, gui, list[..n], s) + EjectLines(players, gui, list[n], s)
  }

  /** The lines for one listed player j: none for the pusher itself, else "eject: K" to j and "pex id" to the graphical clients. */
  function EjectLines(players: seq<ServerPlayer>, gui: seq<int>, j: nat, s: nat): seq<Sent>
    requires s < |players|
  {
    if j < |players| && players[j].id != players[s].id then
      [Sent(players[j].socket, ExpulseText(players[s].orientation))] + ToEach(gui, PexText(players[j].id))
    else []
  }

  /** The loop's lines for two lists one after the other are the lines of the first, then of the second. */
  lemma {:induction false} EjectSentAppend(players: seq<ServerPlayer>, gui: seq<int>, a: seq<nat>, b: seq<nat>, s: nat)
    requires s < |players|
    ensures EjectSent(players, gui, a + b, s) == EjectSent(players, gui, a, s) + EjectSent(players, gui, b, s)
  {
    if b == [] {
      assert a + b == a;
    } else {
      var n := |b| - 1;
      var c := b[..n];
      assert b == c + [b[n]];
      assert a + b == (a + c) + [b[n]];
      EjectSentAppend(players, gui, a, c, s);
      EjectSentSnoc(players, gui, a + c, b[n], s);
      EjectSentSnoc(players, gui, c, b[n], s);
      Regroup(EjectSent(players, gui, a, s), EjectSent(players, gui, c, s), EjectLines(players, gui, b[n], s));
    }
  }

  /** One more listed player adds that player's lines at the end. */
  lemma EjectSentSnoc(players: seq<ServerPlayer>, gui: seq<int>, list: seq<nat>, j: nat, s: nat)
    requires s < |players|
    ensures EjectSent(players, gui, list + [j], s) == EjectSent(players, gui, list, s) + EjectLines(players, gui, j, s)
  {
    assert (list + [j])[..|list|] == list;
  }

  /** The lines for the k-th listed player sit between those for the players before and after it. */
  lemma EjectSentAround(players: seq<ServerPlayer>, gui: seq<int>, list: seq<nat>, s: nat, k: nat)
    requires s < |players| && k < |list|
    ensures EjectSent(players, gui, list, s)
      == EjectSent(players, gui, list[..k], s) + EjectLines(players, gui, list[k], s) + EjectSent(players, gui, list[k + 1..], s)
  {
    assert list == list[..k] + [list[k]] + list[k + 1..];
    assert [list[k]][..0] == [];
    EjectSentAppend(players, gui, list[..k] + [list[k]], list[k + 1..], s);
    EjectSentAppend(players, gui, list[..k], [list[k]], s);
  }

  /** One pass of the loop on an ejected player j: interrupted, pushed, told, and announced as "pex id". */
  method PushOne(h: CommandHandler, j: nat, o: Orientation)
    requires j < |h.players| && h.width > 0 && h.height > 0
    modifies h`players, h`sent
    ensures h.players == old(h.players)[j := Pushed(old(h.players[j]), o, h.width, h.height)]
    ensures GuiSockets(h.teams, h.players) == GuiSockets(h.teams, old(h.players))
    ensures h.sent == old(h.sent) + ([Sent(old(h.players[j]).socket, ExpulseText(o))]
                                     + ToEach(GuiSockets(h.teams, old(h.players)), PexText(old(h.players[j]).id)))
  {
    var q := h.players[j];
    h.players := h.players[j := q.(interrupted := true)];
    EjectPlayerForward(h, j, o);
    PushedKeepsGui(h.teams, old(h.players), h.players, j, o, h.width, h.height);
    MessageToGui(h, PexText(q.id));
    Regroup(old(h.sent), [Sent(q.socket, ExpulseText(o))], ToEach(GuiSockets(h.teams, old(h.players)), PexText(q.id)));
  }

  /** The loop's bookkeeping for the k-th listed player: it is still untouched, and handling it extends both invariants. */
  lemma PushStep(teams: seq<Team>, players: seq<ServerPlayer>, cur: seq<ServerPlayer>, list: seq<nat>, k: nat, s: nat, w: nat, h: nat)
    requires s < |players| && k < |list| && w > 0 && h > 0
    requires Ascending(list) && forall i :: 0 <= i < |list| ==> list[i] < |players|
    requires PushedUpTo(players, cur, list, k, s, w, h)
    ensures cur[list[k]] == players[list[k]]
    ensures players[list[k]].id != players[s].id ==>
      PushedUpTo(players, cur[list[k] := Pushed(players[list[k]], players[s].orientation, w, h)], list, k + 1, s, w, h)
    ensures players[list[k]].id == players[s].id ==> PushedUpTo(players, cur, list, k + 1, s, w, h)
    ensures EjectSent(players, GuiSockets(teams, players), list[..k + 1], s)
      == EjectSent(players, GuiSockets(teams, players), list[..k], s)
         + if players[list[k]].id != players[s].id
           then [Sent(players[list[k]].socket, ExpulseText(players[s].orientation))]
                + ToEach(GuiSockets(teams, players), PexText(players[list[k]].id))
           else []
  {
    AscendingFresh(list, k);
    assert list[..k + 1] == list[..k] + [list[k]];
    assert list[..k + 1][..k] == list[..k];
  }

  /** The body of handleEject's loop for the k-th listed player, which the pusher s skips when it meets itself. */
  method EjectListed(h: CommandHandler, s: nat, list: seq<nat>, k: nat, ghost P: seq<ServerPlayer>, ghost S: seq<Sent>, ghost gui: seq<int>)
    requires s < |P| && k < |list| && h.width > 0 && h.height > 0
    requires Ascending(list) && forall i :: 0 <= i < |list| ==> list[i] < |P|
    requires PushedUpTo(P, h.players, list, k, s, h.width, h.height)
    requires GuiSockets(h.teams, h.players) == gui == GuiSockets(h.teams, P)
    requires h.sent == S + EjectSent(P, gui, list[..k], s)
    modifies h`players, h`sent
    ensures PushedUpTo(P, h.players, list, k + 1, s, h.width, h.height)
    ensures GuiSockets(h.teams, h.players) == gui
    ensures h.sent == S + EjectSent(P, gui, list[..k + 1], s)
  {
    var j := list[k];
    PushStep(h.teams, P, h.players, list, k, s, h.width, h.height);
    ghost var before := EjectSent(P, gui, list[..k], s);
    if h.players[j].id != h.players[s].id {
      PushOne(h, j, h.players[s].orientation);
      Regroup(S, before, [Sent(P[j].socket, ExpulseText(P[s].orientation))] + ToEach(gui, PexText(P[j].id)));
    } else {
      assert before + [] == before;
    }
  }

  /**
   * The loop of handleEject for pusher s: each listed player other than s
   * is interrupted, pushed and reported.
   */
  method EjectAll(h: CommandHandler, s: nat)
    requires s < |h.players| && h.width > 0 && h.height > 0
    modifies h`players, h`sent
    ensures PushedUpTo(old(h.players), h.players, PlayersOnTile(h.teams, old(h.players), old(h.players[s]).x, old(h.players[s]).y),
                       |PlayersOnTile(h.teams, old(h.players), old(h.players[s]).x, old(h.players[s]).y)|, s, h.width, h.height)
    ensures h.sent == old(h.sent) + EjectSent(old(h.players), GuiSockets(h.teams, old(h.players)),
                                               PlayersOnTile(h.teams, old(h.players), old(h.players[s]).x, old(h.players[s]).y), s)
  {
    var pusher := h.players[s];
    var list := GetPlayerOnTile(h, pusher.x, pusher.y);
    PlayersOnTileSpec(h.teams, h.players, pusher.x, pusher.y);
    ghost var P, S := h.players, h.sent;
    ghost var gui := GuiSockets(h.teams, P);
    var k := 0;
    while k < |list|
      invariant 0 <= k <= |list|
      invariant PushedUpTo(P, h.players, list, k, s, h.width, h.height)
      invariant GuiSockets(h.teams, h.players) == gui
      invariant h.sent == S + EjectSent(P, gui, list[..k], s)
    {
      EjectListed(h, s, list, k, P, S, gui);
      k := k + 1;
    }
    assert list[..|list|] == list;
  }

  /** Pushing a player keeps every socket and team, so the graphical clients stay the same. */
  lemma PushedKeepsGui(teams: seq<Team>, a: seq<ServerPlayer>, b: seq<ServerPlayer>, j: nat, o: Orientation, w: nat, h: nat)
    requires j < |a| == |b| && w > 0 && h > 0
    requires forall i :: 0 <= i < |a| && i != j ==> b[i] == a[i]
    requires b[j].socket == a[j].socket && b[j].team == a[j].team
    ensures GuiSockets(teams, b) == GuiSockets(teams, a)
  {
    GuiSocketsKept(teams, a, b);
  }

  /**
   * handleEject for player s. When the wait is cut short nothing more
   * happens; otherwise the players on s's tile other than s are pushed, and
   * s itself gets no reply.
   */
  method HandleEject(h: CommandHandler, s: nat, ejectedMeanwhile: bool)
    requires s < |h.players| && h.width > 0 && h.height > 0
    modifies h`players, h`sent
    ensures WaitCompletes(old(h.players[s]), Eject, ejectedMeanwhile) ==>
      PushedUpTo(old(h.players)[s := Waited(old(h.players[s]), Eject, ejectedMeanwhile)], h.players,
                 PlayersOnTile(h.teams, old(h.players), old(h.players[s]).x, old(h.players[s]).y),
                 |PlayersOnTile(h.teams, old(h.players), old(h.players[s]).x, old(h.players[s]).y)|, s, h.width, h.height)
    ensures WaitCompletes(old(h.players[s]), Eject, ejectedMeanwhile) ==>
      h.sent == old(h.sent) + EjectSent(old(h.players)[s := Waited(old(h.players[s]), Eject, ejectedMeanwhile)],
        GuiSockets(h.teams, old(h.players)), PlayersOnTile(h.teams, old(h.players), old(h.players[s]).x, old(h.players[s]).y), s)
    ensures !WaitCompletes(old(h.players[s]), Eject, ejectedMeanwhile) ==>
      h.players == old(h.players)[s := Waited(old(h.players[s]), Eject, ejectedMeanwhile)] && h.sent == old(h.sent)
  {
    ghost var P := h.players;
    var completed := WaitCommand(h, s, Eject, ejectedMeanwhile);
    if !completed {
      return;
    }
    WaitedOnTile(h.teams, P, h.players, s);
    GuiSocketsUpdate(h.teams, P, s, h.players[s]);
    EjectAll(h, s);
  }

  /** Every player the pusher ejects is told "eject: K", and every graphical client hears "pex id" for it. */
  lemma EjectTellsEjected(teams: seq<Team>, players: seq<ServerPlayer>, s: nat, j: nat)
    requires s < |players| && j < |players| && Ejects(teams, players, s, j)
    ensures Sent(players[j].socket, ExpulseText(players[s].orientation))
      in EjectSent(players, GuiSockets(teams, players), PlayersOnTile(teams, players, players[s].x, players[s].y), s)
    ensures forall g :: g in GuiSockets(teams, players) ==>
      Sent(g, PexText(players[j].id)) in EjectSent(players, GuiSockets(teams, players), PlayersOnTile(teams, players, players[s].x, players[s].y), s)
  {
    var list := PlayersOnTile(teams, players, players[s].x, players[s].y);
    PlayersOnTileSpec(teams, players, players[s].x, players[s].y);
    var k :| 0 <= k < |list| && list[k] == j;
    var gui := GuiSockets(teams, players);
    var lines := EjectLines(players, gui, j, s);
    EjectSentAround(players, gui, list, s, k);
    assert lines[0] == Sent(players[j].socket, ExpulseText(players[s].orientation));
    forall g | g in gui
      ensures Sent(g, PexText(players[j].id)) in lines
    {
      ReachesEach(lines[0], gui, g, PexText(players[j].id));
    }
  }

  /** A line sent to each of the sockets reaches every one of them. */
  lemma ReachesEach(first: Sent, sockets: seq<int>, g: int, text: string)
    requires g in sockets
    ensures Sent(g, text) in [first] + ToEach(sockets, text)
  {
    var i :| 0 <= i < |sockets| && sockets[i] == g;
    assert ToEach(sockets, text)[i] == Sent(g, text);
    assert ([first] + ToEach(sockets, text))[1 + i] == Sent(g, text);
  }

  /** The wait changes only flags: the players on s's tile are the same. */
  lemma WaitedOnTile(teams: seq<Team>, a: seq<ServerPlayer>, b: seq<ServerPlayer>, s: nat)
    requires s < |a| == |b|
    requires forall i :: 0 <= i < |a| && i != s ==> b[i] == a[i]
    requires b[s].x == a[s].x && b[s].y == a[s].y && b[s].team == a[s].team
    ensures PlayersOnTile(teams, b, b[s].x, b[s].y) == PlayersOnTile(teams, a, a[s].x, a[s].y)
  {
    OnTileKept(teams, a, b, |a|, a[s].x, a[s].y);
  }

  lemma {:induction false} OnTileKept(teams: seq<Team>, a: seq<ServerPlayer>, b: seq<ServerPlayer>, n: nat, x: int, y: int)
    requires n <= |a| == |b|
    requires forall i :: 0 <= i < |a| ==> OnTile(teams, a[i], x, y) == OnTile(teams, b[i], x, y)
    ensures OnTileBelow(teams, b, n, x, y) == OnTileBelow(teams, a, n, x, y)
  {
    if n > 0 {
      OnTileKept(teams, a, b, n - 1, x, y);
    }
  }

  // ---- What an ejection achieves --------------------------------------------------

  /**
   * After the pushes, exactly the players Ejects picks have moved (and are
   * interrupted); everyone else, the pusher included, is unchanged.
   */
  lemma EjectOutcome(teams: seq<Team>, players: seq<ServerPlayer>, cur: seq<ServerPlayer>, s: nat, w: nat, h: nat)
    requires s < |players| && w > 0 && h > 0
    requires PushedUpTo(players, cur, PlayersOnTile(teams, players, players[s].x, players[s].y),
                        |PlayersOnTile(teams, players, players[s].x, players[s].y)|, s, w, h)
    ensures |cur| == |players|
    ensures forall j :: 0 <= j < |players| ==>
      cur[j] == if Ejects(teams, players, s, j) then Pushed(players[j], players[s].orientation, w, h) else players[j]
    ensures cur[s] == players[s]
  {
    var list := PlayersOnTile(teams, players, players[s].x, players[s].y);
    PlayersOnTileSpec(teams, players, players[s].x, players[s].y);
    assert list[..|list|] == list;
  }

  /**
   * On a map where the push axis has more than one tile, no ejected player
   * is left on the pusher's tile.
   */
  lemma EjectClearsTile(teams: seq<Team>, players: seq<ServerPlayer>, cur: seq<ServerPlayer>, s: nat, w: nat, h: nat)
    requires s < |players| && w > 0 && h > 0
    requires 0 <= players[s].x < w && 0 <= players[s].y < h
    requires PushedUpTo(players, cur, PlayersOnTile(teams, players, players[s].x, players[s].y),
                        |PlayersOnTile(teams, players, players[s].x, players[s].y)|, s, w, h)
    requires if Index(players[s].orientation) % 2 == 0 then h > 1 else w > 1
    ensures forall j :: 0 <= j < |players| && Ejects(teams, players, s, j) ==>
      !(cur[j].x == players[s].x && cur[j].y == players[s].y)
  {
    EjectOutcome(teams, players, cur, s, w, h);
    var x, y, o := players[s].x, players[s].y, players[s].orientation;
    var v := DirectionVector(o);
    WrapStep(x + v.0, w);
    WrapStep(y + v.1, h);
    assert ForwardPosition(x, y, o, w, h) != (x, y);
  }
}
