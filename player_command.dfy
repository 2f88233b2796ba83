/**
 * connect_nbr and fork: the number of free places in the player's team, and
 * laying an egg that opens one more.
 */
module PlayerCommand {
  import opened Wrappers
  import opened Text
  import opened ServerWorld
  import opened ClientCommand

  /** The reply to connect_nbr: the free places as a decimal number and a newline. */
  function ConnectNbrText(n: int): string
  {
    IntToString(n) + "\n"
  }

  /** A client reading the reply with `>>` gets the number back, with the newline left over. */
  lemma ConnectNbrTextReadable(n: int)
    ensures ReadInt(ConnectNbrText(n)) == Some((n, "\n"))
  {
    ReadIntOfIntToString(n, "\n");
  }

  /**
   * handleConnectNbr for player i: a player team's capacity minus the size of
   * its member list; a member of the graphical team gets no reply.
   */
  method HandleConnectNbr(h: CommandHandler, i: nat)
    requires i < |h.players| && h.players[i].team < |h.teams|
    modifies h`players, h`sent
    ensures h.teams[old(h.players[i]).team].kind.PlayerTeam? ==>
      h.players == old(h.players)[i := old(h.players[i]).(inAction := false)] &&
      h.sent == old(h.sent) + [Sent(old(h.players[i]).socket,
        ConnectNbrText(h.teams[old(h.players[i]).team].kind.clientNb - MemberCount(old(h.players), old(h.players[i]).team)))]
    ensures h.teams[old(h.players[i]).team].kind.GuiTeam? ==> h.players == old(h.players) && h.sent == old(h.sent)
  {
    var p := h.players[i];
    var team := h.teams[p.team];
    if team.kind.PlayerTeam? {
      var free := team.kind.clientNb - MemberCount(h.players, p.team);
      h.players := h.players[i := p.(inAction := false)];
      SendTo(h, p, ConnectNbrText(free));
    }
  }

  /** "pfk #id\n": a player starts laying an egg. */
  function PfkText(p: ServerPlayer): string
  {
    "pfk #" + IntToString(p.id) + "\n"
  }

  /** "enw #egg #id x y\n": egg number egg was laid by player id on (x, y). */
  function EnwText(egg: int, p: ServerPlayer): string
  {
    "enw #" + IntToString(egg) + " #" + IntToString(p.id) + " " + IntToString(p.x) + " " + IntToString(p.y) + "\n"
  }

  /** addNewEgg: a new egg of the team on (x, y), under the next free id. */
  method AddNewEgg(h: CommandHandler, teamId: int, x: int, y: int) returns (id: int)
    modifies h`eggs, h`nextEggId
    ensures id == old(h.nextEggId) && h.nextEggId == id + 1
    ensures h.eggs == old(h.eggs) + [EggRecord(id, teamId, x, y)]
    ensures EggIdsBelow(old(h.eggs), old(h.nextEggId)) ==> EggIdsBelow(h.eggs, h.nextEggId)
  {
    id := h.nextEggId;
    h.eggs := h.eggs + [EggRecord(id, teamId, x, y)];
    h.nextEggId := id + 1;
  }

  /**
   * handleFork for player i. The graphical clients hear "pfk" first; the
   * egg-laying time passes whatever happens meanwhile. For a player team the
   * capacity grows by one, an egg of the team appears on the player's tile,
   * the player leaves its action, the graphical clients hear "enw" and the
   * player gets "ok\n".
   */
  method HandleFork(h: CommandHandler, i: nat)
    requires i < |h.players| && h.players[i].team < |h.teams|
    modifies h`players, h`sent, h`teams, h`eggs, h`nextEggId
    ensures old(h.teams[h.players[i].team]).kind.PlayerTeam? ==>
      h.teams == old(h.teams)[old(h.players[i]).team :=
        old(h.teams[h.players[i].team]).(kind := PlayerTeam(old(h.teams[h.players[i].team]).kind.clientNb + 1))] &&
      h.eggs == old(h.eggs) + [EggRecord(old(h.nextEggId), old(h.teams[h.players[i].team]).id, old(h.players[i]).x, old(h.players[i]).y)] &&
      h.nextEggId == old(h.nextEggId) + 1 &&
      h.players == old(h.players)[i := old(h.players[i]).(inAction := false)] &&
      h.sent == old(h.sent) + ToEach(GuiSockets(old(h.teams), old(h.players)), PfkText(old(h.players[i])))
                            + ToEach(GuiSockets(old(h.teams), old(h.players)), EnwText(old(h.nextEggId), old(h.players[i])))
                            + [Sent(old(h.players[i]).socket, "ok\n")]
    ensures old(h.teams[h.players[i].team]).kind.GuiTeam? ==>
      h.teams == old(h.teams) && h.eggs == old(h.eggs) && h.nextEggId == old(h.nextEggId) && h.players == old(h.players) &&
      h.sent == old(h.sent) + ToEach(GuiSockets(old(h.teams), old(h.players)), PfkText(old(h.players[i])))
    ensures EggIdsBelow(old(h.eggs), old(h.nextEggId)) ==> EggIdsBelow(h.eggs, h.nextEggId)
  {
    MessageToGui(h, PfkText(h.players[i]));
    if h.teams[h.players[i].team].kind.PlayerTeam? {
      LayEgg(h, i);
    }
  }

  /** The player-team half of handleFork, once "pfk" is out. */
  method LayEgg(h: CommandHandler, i: nat)
    requires i < |h.players| && h.players[i].team < |h.teams| && h.teams[h.players[i].team].kind.PlayerTeam?
    modifies h`players, h`sent, h`teams, h`eggs, h`nextEggId
    ensures h.teams == old(h.teams)[old(h.players[i]).team :=
        old(h.teams[h.players[i].team]).(kind := PlayerTeam(old(h.teams[h.players[i].team]).kind.clientNb + 1))]
    ensures h.eggs == old(h.eggs) + [EggRecord(old(h.nextEggId), old(h.teams[h.players[i].team]).id, old(h.players[i]).x, old(h.players[i]).y)]
    ensures h.nextEggId == old(h.nextEggId) + 1
    ensures h.players == old(h.players)[i := old(h.players[i]).(inAction := false)]
    ensures h.sent == old(h.sent) + ToEach(GuiSockets(old(h.teams), old(h.players)), EnwText(old(h.nextEggId), old(h.players[i])))
                                  + [Sent(old(h.players[i]).socket, "ok\n")]
  {
    var p := h.players[i];
    var team := h.teams[p.team];
    ghost var T := h.teams;
    ghost var P := h.players;
    h.teams := h.teams[p.team := team.(kind := PlayerTeam(team.kind.clientNb + 1))];
    GuiSocketsSameNames(T, h.teams, P);
    var egg := AddNewEgg(h, team.id, p.x, p.y);
    h.players := h.players[i := p.(inAction := false)];
    GuiSocketsUpdate(h.teams, P, i, p.(inAction := false));
    MessageToGui(h, EnwText(egg, p));
    SendTo(h, p, "ok\n");
  }

  /** The egg a fork lays carries an id no earlier egg has. */
  lemma ForkEggFresh(eggs: seq<EggRecord>, next: int, teamId: int, x: int, y: int)
    requires EggIdsBelow(eggs, next)
    ensures forall k :: 0 <= k < |eggs| ==> eggs[k] != EggRecord(next, teamId, x, y)
    ensures EggIdsBelow(eggs + [EggRecord(next, teamId, x, y)], next + 1)
  {
  }

  /** A fork opens exactly one place: connect_nbr's answer for the team grows by one. */
  lemma ForkOpensPlace(players: seq<ServerPlayer>, i: nat, clientNb: int, t: nat)
    requires i < |players|
    ensures var after := players[i := players[i].(inAction := false)];
      (clientNb + 1) - MemberCount(after, t) == clientNb - MemberCount(players, t) + 1
  {
    MemberCountKept(players, players[i := players[i].(inAction := false)], t);
  }

  /** Players that keep their teams give every team the same member count. */
  lemma {:induction false} MemberCountKept(a: seq<ServerPlayer>, b: seq<ServerPlayer>, t: nat)
    requires |a| == |b| && forall k :: 0 <= k < |a| ==> a[k].team == b[k].team
    ensures MemberCount(b, t) == MemberCount(a, t)
  {
    if a != [] {
      MemberCountKept(a[..|a| - 1], b[..|b| - 1], t);
    }
  }
}
